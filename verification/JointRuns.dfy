/**
  Runs in which all billing shares the accounts: V2 steps, V1 operations and quotes, plain requests and leases,
  administrative grants and the deletion of Keys, in any order. Every transaction that writes a hold or a ledger
  row of a budget account is a step of such a run; moving the old single ledger onto accounts is not.
 */
module JointRuns {
  import opened Wrappers
  import opened Model
  import opened Ledger
  import opened EventGroup
  import opened Billing
  import opened Settling
  import opened Grants
  import opened Invariant
  import opened Frame
  import opened Money
  import opened Solvency
  import opened Holds
  import opened Foreign
  import opened ForeignMoves
  import opened Finality
  import opened Tables
  import opened Controlled
  import ControlledRuns
  import PlainMoves
  import Runs
  import Integrity

  datatype Action =
    | Budgeted(budget: Runs.Action)
    | Billed(billed: ControlledRuns.Action)
    | Plainly(plain: PlainMoves.Action)
    | QuietWork

  /** Keys, requests, relations, preparations and account modes change, but no credits move and no hold. */
  ghost predicate QuietDone(core: Db, core': Db) {
    Runs.OtherWorkDone(core, core') && core'.reservations == core.reservations && core'.ledger == core.ledger
  }

  ghost predicate Next(b: ControlledBooks, action: Action, b': ControlledBooks) {
    match action
    case Budgeted(budget) => !budget.OtherWork? && b' == b.(core := Runs.After(b.core, budget))
    case Billed(billed) => b' == ControlledRuns.Acted(b, billed)
    case Plainly(plain) => b' == b.(core := PlainMoves.Acted(b.core, plain))
    case QuietWork => b' == b.(core := b'.core) && QuietDone(b.core, b'.core)
  }

  /** A step as the V2 ledger sees it. */
  function Projected(action: Action): Runs.Action {
    if action.Budgeted? then action.budget else Runs.OtherWork
  }

  /** The administrative grants, which are the V2 ledger's own transactions. */
  predicate GrantsCredit(action: Action) {
    action.Budgeted? && IsGrant(action.budget)
  }

  // What every step keeps

  ghost predicate Structure(b: ControlledBooks) {
    && Inv(b.core)
    && ForeignShaped(b.core)
    && ForeignBounded(b.core)
    && Solvent(b.core.ledger)
    && ControlledRuns.Sound(b)
  }

  /** The closed hold that a step reaches for, to close or suspend it once more. */
  function Reached(b: ControlledBooks, action: Action): Option<nat> {
    match action
    case Budgeted(_) => None
    case Billed(billed) => ControlledRuns.Reached(b, billed)
    case Plainly(plain) => PlainMoves.Reached(b.core, plain)
    case QuietWork => None
  }

  lemma BilledEffect(b: ControlledBooks, action: Action, b': ControlledBooks) returns (e: Effect)
    requires ControlledRuns.Sound(b) && Next(b, action, b') && (action.Billed? || action.Plainly?)
    ensures Effected(b.core, b'.core, e)
    ensures ReopenedHold(b.core, e) == Reached(b, action)
  {
    hide ControlledRuns.Sound, ControlledRuns.Acted, ControlledRuns.Reached, PlainMoves.Acted, PlainMoves.Reached,
         PlainMoves.ActionEffect, Effected, ReopenedHold;
    if action.Billed? {
      e := ControlledRuns.ActionEffect(b, action.billed);
    } else {
      PlainMoves.ActionEffected(b.core, action.plain);
      e := PlainMoves.ActionEffect(b.core, action.plain);
    }
  }

  /** To the V2 ledger, whatever is not its own transaction is other work. */
  lemma StepProjects(b: ControlledBooks, action: Action, b': ControlledBooks)
    requires Structure(b) && Next(b, action, b')
    ensures Runs.Next(b.core, Projected(action), b'.core)
  {
    hide Inv, ForeignShaped, ForeignBounded, Solvent, ControlledRuns.Sound, ControlledRuns.Acted, PlainMoves.Acted, Runs.After,
         Runs.OtherWorkDone, Effected;
    InvTables(b.core);
    if action.Billed? || action.Plainly? {
      var e := BilledEffect(b, action, b');
      EffectIsOtherWork(b.core, b'.core, e);
    }
  }

  lemma QuietStays(core: Db, core': Db)
    requires QuietDone(core, core')
    ensures ControlledRuns.ForeignStay(core, core')
  {
    hide ReservationsSound, AdmissionsKept, AccountsGrow, IdentitiesKept;
  }

  lemma KeptStays(core: Db, core': Db)
    requires ForeignKept(core, core')
    ensures ControlledRuns.ForeignStay(core, core')
  {
    hide EventsOf, OwnedByStep;
    forall id: nat | id < |core.reservations| && !OwnedByStep(core, id)
      ensures ControlledRuns.HoldStays(core, core', id)
    {
      assert ForeignSame(core, core', id);
    }
  }

  /** No step moves a hold that is not its own to move. */
  lemma StepStays(b: ControlledBooks, action: Action, b': ControlledBooks)
    requires Structure(b) && Next(b, action, b')
    ensures ControlledRuns.ForeignStay(b.core, b'.core)
  {
    hide Inv, ForeignShaped, ForeignBounded, Solvent, ControlledRuns.Sound, ControlledRuns.Acted, PlainMoves.Acted, Runs.After,
         QuietDone, Effected, ControlledRuns.ForeignStay, ForeignKept;
    match action
    case Budgeted(budget) =>
      NextForeign(b.core, budget, b'.core);
      KeptStays(b.core, b'.core);
    case Billed(_) =>
      var e := BilledEffect(b, action, b');
      ControlledRuns.EffectStays(b.core, b'.core, e);
    case Plainly(_) =>
      var e := BilledEffect(b, action, b');
      ControlledRuns.EffectStays(b.core, b'.core, e);
    case QuietWork => QuietStays(b.core, b'.core);
  }

  lemma StepKeepsInv(b: ControlledBooks, action: Action, b': ControlledBooks)
    requires Structure(b) && Next(b, action, b')
    ensures Inv(b'.core)
  {
    hide Inv, ForeignShaped, ForeignBounded, Solvent, ControlledRuns.Sound, Next, Runs.Next;
    StepProjects(b, action, b');
    Runs.NextKeepsInv(b.core, Projected(action), b'.core);
  }

  lemma StepKeepsBooks(b: ControlledBooks, action: Action, b': ControlledBooks)
    requires Structure(b) && Next(b, action, b')
    ensures ControlledRuns.Sound(b')
  {
    hide Inv, ForeignShaped, ForeignBounded, Solvent, ControlledRuns.Sound, ControlledRuns.Acted, PlainMoves.Acted, Runs.After,
         QuietDone, ControlledRuns.ForeignStay;
    StepStays(b, action, b');
    StepKeepsInv(b, action, b');
    InvTables(b.core);
    InvTables(b'.core);
    if action.Billed? {
      ControlledRuns.ActionKeeps(b, action.billed);
    } else {
      ControlledRuns.CoreKeepsSound(b, b'.core);
    }
  }

  lemma QuietShaped(core: Db, core': Db)
    requires QuietDone(core, core') && ForeignShaped(core) && ForeignBounded(core)
    ensures ForeignShaped(core') && ForeignBounded(core')
  {
    hide ReservationsSound, AdmissionsKept, IdentitiesKept, HoldShaped, ChargesBounded, EventsOf;
    forall id: nat | id < |core'.reservations| && !OwnedByStep(core', id)
      ensures HoldShaped(core'.reservations[id]) && ScopesRight(core'.accounts, core'.reservations[id])
      ensures ChargesBounded(EventsOf(core'.ledger, HoldGroup(id)), core'.reservations[id])
    {
      assert !OwnedByStep(core, id);
    }
  }

  lemma StepKeepsShaped(b: ControlledBooks, action: Action, b': ControlledBooks)
    requires Structure(b) && Next(b, action, b')
    ensures ForeignShaped(b'.core) && ForeignBounded(b'.core)
  {
    hide Inv, ForeignShaped, ForeignBounded, Solvent, ControlledRuns.Sound, ControlledRuns.Acted, PlainMoves.Acted,
         Runs.After, QuietDone, Effected, ForeignKept, Advances, SameScopes;
    InvTables(b.core);
    match action
    case Budgeted(budget) =>
      NextForeign(b.core, budget, b'.core);
      NextAdvances(b.core, budget, b'.core);
      ScopesStay(b.core, budget, b'.core);
      KeptShaped(b.core, b'.core);
      KeptBounded(b.core, b'.core);
    case Billed(_) =>
      var e := BilledEffect(b, action, b');
      EffectKeepsShaped(b.core, b'.core, e);
      EffectKeepsBounded(b.core, b'.core, e);
    case Plainly(_) =>
      var e := BilledEffect(b, action, b');
      EffectKeepsShaped(b.core, b'.core, e);
      EffectKeepsBounded(b.core, b'.core, e);
    case QuietWork => QuietShaped(b.core, b'.core);
  }

  /** Every step moves the ledger by nothing, by one entry on each account of one hold, or by one grant. */
  lemma StepMoves(b: ControlledBooks, action: Action, b': ControlledBooks) returns (move: Move)
    requires Structure(b) && Next(b, action, b')
    ensures MoveAllowed(b.core.ledger, move) && b'.core.ledger == Moved(b.core.ledger, move)
    ensures move.Credited? ==> GrantsCredit(action)
  {
    hide Inv, ForeignShaped, ForeignBounded, Solvent, ControlledRuns.Sound, ControlledRuns.Acted, PlainMoves.Acted, Runs.After,
         Effected, MoveAllowed, Moved, Runs.OtherWorkDone;
    StillAllowed(b.core.ledger);
    StillMoves(b.core.ledger);
    match action
    case Budgeted(budget) => move := NextMoves(b.core, budget, b'.core);
    case Billed(_) =>
      var e := BilledEffect(b, action, b');
      move := EffectMoves(b.core, b'.core, e);
    case Plainly(_) =>
      var e := BilledEffect(b, action, b');
      move := EffectMoves(b.core, b'.core, e);
    case QuietWork => move := Still;
  }

  lemma StepKeepsSolvent(b: ControlledBooks, action: Action, b': ControlledBooks)
    requires Structure(b) && Next(b, action, b')
    ensures Solvent(b'.core.ledger)
  {
    hide Next, MoveAllowed, Moved, SolventOn, Inv, ForeignShaped, ControlledRuns.Sound;
    var move := StepMoves(b, action, b');
    forall account: nat
      ensures SolventOn(b'.core.ledger, account)
    {
      MoveKeepsSolvent(b.core.ledger, move, account);
    }
  }

  lemma StepKeepsStructure(b: ControlledBooks, action: Action, b': ControlledBooks)
    requires Structure(b) && Next(b, action, b')
    ensures Structure(b')
  {
    hide Inv, ForeignShaped, ForeignBounded, Solvent, ControlledRuns.Sound, Next;
    StepKeepsInv(b, action, b');
    StepKeepsShaped(b, action, b');
    StepKeepsSolvent(b, action, b');
    StepKeepsBooks(b, action, b');
  }

  // What a step leaves in excess

  lemma QuietExcess(core: Db, core': Db, account: nat)
    requires QuietDone(core, core')
    ensures Excess(core', account) == Excess(core, account)
  {
    hide Runs.OtherWorkDone;
  }

  /**
    The exact law: a step leaves in excess, on every account, the amount of the closed hold it reaches for if that
    is charged to the account, and nothing otherwise.
   */
  lemma StepExcess(b: ControlledBooks, action: Action, b': ControlledBooks, account: nat)
    requires Structure(b) && Next(b, action, b')
    ensures Excess(b'.core, account) == Excess(b.core, account) + AmountOn(b.core, Reached(b, action), account)
  {
    hide Inv, ForeignShaped, ForeignBounded, Solvent, ControlledRuns.Sound, ControlledRuns.Acted, PlainMoves.Acted,
         Runs.After, QuietDone, Effected, ForeignKept, Advances, Excess, ReopenedHold;
    match action
    case Budgeted(budget) =>
      NextForeign(b.core, budget, b'.core);
      NextAdvances(b.core, budget, b'.core);
      StepKeepsInv(b, action, b');
      KeptExcess(b.core, b'.core, account);
    case Billed(_) =>
      var e := BilledEffect(b, action, b');
      EffectExcess(b.core, b'.core, e, account);
    case Plainly(_) =>
      var e := BilledEffect(b, action, b');
      EffectExcess(b.core, b'.core, e, account);
    case QuietWork => QuietExcess(b.core, b'.core, account);
  }

  /** The closed hold a step reaches for is no V2 step's, and holds something. */
  lemma ReachedHold(b: ControlledBooks, action: Action, b': ControlledBooks)
    requires Structure(b) && Next(b, action, b') && Reached(b, action).Some?
    ensures var id := Reached(b, action).value;
            && id < |b.core.reservations| && !OwnedByStep(b.core, id) && Closed(b.core.reservations[id].state)
            && b.core.reservations[id].amount > 0
  {
    hide Inv, ForeignBounded, Solvent, ControlledRuns.Sound, ControlledRuns.Acted, PlainMoves.Acted, OwnedByStep,
         Runs.After, QuietDone, Reached, ScopesRight;
    if action.Budgeted? || action.QuietWork? {
      NothingReached(b, action);
    } else {
      var e := BilledEffect(b, action, b');
      EffectUnowned(b.core, b'.core, e);
    }
  }

  lemma NothingReached(b: ControlledBooks, action: Action)
    requires action.Budgeted? || action.QuietWork?
    ensures Reached(b, action) == None
  {
  }

  lemma EffectUnowned(core: Db, core': Db, e: Effect)
    requires Effected(core, core', e) && ReopenedHold(core, e).Some?
    ensures !OwnedByStep(core, ReopenedHold(core, e).value)
  {
  }

  // The entries of one hold

  /** The entries of a hold that no step owns are those its state says. */
  ghost predicate BookedAt(core: Db, id: nat) {
    id < |core.reservations| && HoldBooked(EventsOf(core.ledger, HoldGroup(id)), core.reservations[id])
  }

  lemma KeptRows(core: Db, core': Db, id: nat)
    requires ForeignKept(core, core') && Advances(core, core') && id < |core'.reservations| && !OwnedByStep(core', id)
    ensures id < |core.reservations| && !OwnedByStep(core, id)
    ensures core'.reservations[id] == core.reservations[id]
    ensures EventsOf(core'.ledger, HoldGroup(id)) == EventsOf(core.ledger, HoldGroup(id))
  {
    hide EventsOf, OwnedByStep, Advances;
    OldUnowned(core, core', id);
    assert ForeignSame(core, core', id);
  }

  /** As long as it is not reached for once it is closed. */
  lemma StepKeepsBooked(b: ControlledBooks, action: Action, b': ControlledBooks, id: nat)
    requires Structure(b) && Next(b, action, b') && Reached(b, action) != Some(id)
    requires id < |b'.core.reservations| && !OwnedByStep(b'.core, id)
    requires id < |b.core.reservations| ==> BookedAt(b.core, id)
    ensures BookedAt(b'.core, id)
  {
    hide Inv, ForeignShaped, ForeignBounded, Solvent, ControlledRuns.Sound, ControlledRuns.Acted, PlainMoves.Acted,
         Runs.After, Effected, ForeignKept, Advances, HoldBooked, Reached, EventsOf, OwnedByStep, Runs.OtherWorkDone;
    InvTables(b.core);
    match action
    case Budgeted(budget) =>
      NextForeign(b.core, budget, b'.core);
      NextAdvances(b.core, budget, b'.core);
      KeptRows(b.core, b'.core, id);
    case Billed(_) =>
      var e := BilledEffect(b, action, b');
      EffectKeepsBooked(b.core, b'.core, e, id);
    case Plainly(_) =>
      var e := BilledEffect(b, action, b');
      EffectKeepsBooked(b.core, b'.core, e, id);
    case QuietWork =>
  }

  ghost predicate SpoiledAt(core: Db, id: nat) {
    id < |core.reservations| && Spoiled(EventsOf(core.ledger, HoldGroup(id)), core.reservations[id])
  }

  /** A hold that was reached for never looks whole again. */
  lemma StepKeepsSpoiled(b: ControlledBooks, action: Action, b': ControlledBooks, id: nat)
    requires Structure(b) && Next(b, action, b') && id < |b.core.reservations| && !OwnedByStep(b.core, id)
    requires SpoiledAt(b.core, id) || (Reached(b, action) == Some(id) && BookedAt(b.core, id))
    ensures SpoiledAt(b'.core, id)
  {
    hide Inv, ForeignShaped, ForeignBounded, Solvent, ControlledRuns.Sound, ControlledRuns.Acted, PlainMoves.Acted,
         Runs.After, Effected, Advances, HoldBooked, EventsOf, OwnedByStep, Runs.OtherWorkDone, Spoiled,
         ControlledRuns.Reached, PlainMoves.Reached;
    InvTables(b.core);
    match action
    case Budgeted(budget) =>
      NextForeign(b.core, budget, b'.core);
      assert ForeignSame(b.core, b'.core, id);
    case Billed(_) => EffectSpoils(b, action, b', id);
    case Plainly(_) => EffectSpoils(b, action, b', id);
    case QuietWork =>
  }

  lemma EffectSpoils(b: ControlledBooks, action: Action, b': ControlledBooks, id: nat)
    requires Structure(b) && Next(b, action, b') && id < |b.core.reservations|
    requires action.Billed? || action.Plainly?
    requires SpoiledAt(b.core, id) || (Reached(b, action) == Some(id) && BookedAt(b.core, id))
    ensures SpoiledAt(b'.core, id)
  {
    hide Inv, ForeignShaped, ForeignBounded, Solvent, ControlledRuns.Sound, Next, Effected, HoldBooked, EventsOf,
         OwnedByStep, Spoiled, Reached;
    InvTables(b.core);
    var e := BilledEffect(b, action, b');
    if SpoiledAt(b.core, id) {
      EffectKeepsSpoiled(b.core, b'.core, e, id);
    } else {
      ReopeningSpoils(b.core, b'.core, e);
    }
  }
}
