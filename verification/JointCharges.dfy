/** What V1 billing records as charged is what the ledger charged, for good, whatever else shares the accounts. */
module JointCharges {
  import opened Wrappers
  import opened Model
  import opened Ledger
  import opened EventGroup
  import Billing
  import opened Invariant
  import opened Money
  import opened Solvency
  import opened Holds
  import opened Foreign
  import opened ForeignMoves
  import opened Controlled
  import opened Quotes
  import opened JointRuns
  import opened JointMoney
  import ControlledRuns
  import PlainMoves
  import Runs

  /** The hold is committed, and its commit entries say this amount. */
  ghost predicate Charged(core: Db, id: nat, actual: int) {
    id < |core.reservations| && core.reservations[id].state == HoldCommitted && ChargeOn(core, id) == actual
  }

  ghost predicate OperationCharged(b: ControlledBooks, p: Id)
    requires p in b.operations
  {
    var op := b.operations[p];
    op.state == OpSettled ==> op.actual.Some? && Charged(b.core, op.hold, op.actual.value)
  }

  ghost predicate QuoteCharge(b: ControlledBooks, r: Id)
    requires r in b.settlements
  {
    var found := ReservationFor(b.core.reservations, r);
    found.Some? && Charged(b.core, found.value, b.settlements[r].actual)
  }

  /** A committed hold that no step owns stays as it is, entries and all, unless it is reached for again. */
  lemma CommittedStays(b: ControlledBooks, action: Action, b': ControlledBooks, id: nat)
    requires id < |b.core.reservations| && !OwnedByStep(b.core, id)
    requires b.core.reservations[id].state == HoldCommitted
    requires Structure(b) && Next(b, action, b') && Reached(b, action) != Some(id)
    ensures id < |b'.core.reservations| && b'.core.reservations[id] == b.core.reservations[id]
    ensures ChargeOn(b'.core, id) == ChargeOn(b.core, id)
  {
    hide Structure, ControlledRuns.Acted, PlainMoves.Acted, Runs.After, EventsOf, SettledOn, OwnedByStep, Effected,
         Inv, TablesSound, ForeignShaped, ForeignBounded, Solvent, LedgerSound, Reached, ControlledRuns.Sound,
         Runs.OtherWorkDone;
    StructureParts(b);
    match action
    case Budgeted(budget) =>
      NextForeign(b.core, budget, b'.core);
      assert ForeignSame(b.core, b'.core, id);
    case Billed(_) => EffectStays(b, action, b', id);
    case Plainly(_) => EffectStays(b, action, b', id);
    case QuietWork =>
  }

  lemma EffectStays(b: ControlledBooks, action: Action, b': ControlledBooks, id: nat)
    requires id < |b.core.reservations| && b.core.reservations[id].state == HoldCommitted
    requires Structure(b) && (action.Billed? || action.Plainly?) && Reached(b, action) != Some(id)
    requires Next(b, action, b')
    ensures id < |b'.core.reservations| && b'.core.reservations[id] == b.core.reservations[id]
    ensures ChargeOn(b'.core, id) == ChargeOn(b.core, id)
  {
    hide Structure, Next, EventsOf, SettledOn, OwnedByStep, Effected, Inv, TablesSound, ForeignShaped, ForeignBounded,
         Solvent, LedgerSound, Reached, ControlledRuns.Sound;
    StructureParts(b);
    var e := BilledEffect(b, action, b');
    EffectOwners(b.core, b'.core, e, id);
    TablesReservations(b.core);
    EffectEvents(b.core, b'.core, e, id);
    assert EventsOf(b.core.ledger, HoldGroup(id)) + [] == EventsOf(b.core.ledger, HoldGroup(id));
  }

  lemma TablesReservations(core: Db)
    requires TablesSound(core)
    ensures ReservationsSound(core.accounts, core.reservations)
  {
    hide ReservationsSound, LedgerSound, BudgetIdsUnique, ReferencesSound, AccountsShaped, StepLinked;
  }

  /** A charge that takes effect on a whole hold is on the ledger. */
  lemma ClosedIsCharged(b: ControlledBooks, core': Db, id: nat, actual: int)
    requires Structure(b) && BookedAt(b.core, id) && !OwnedByStep(b.core, id)
    requires Effected(b.core, core', Close(id, Some(actual))) && ReopenedHold(b.core, Close(id, Some(actual))) == None
    ensures Charged(core', id, actual)
  {
    hide Structure, EventsOf, SettledOn, OwnedByStep, Effected, Inv, TablesSound, ForeignBounded, Solvent, LedgerSound,
         HoldBooked, ChargeOn, ScopesRight, ControlledRuns.Sound;
    StructureParts(b);
    assert HoldShaped(b.core.reservations[id]);
    PlainMoves.EffectState(b.core, core', Close(id, Some(actual)));
    NotClosed(b.core.reservations[id].state);
    PlainMoves.ChargeRecorded(b.core, core', id, actual);
  }

  lemma NotClosed(state: HoldState)
    ensures Closed(state) || Outstanding(state)
  {
  }

  // Operations

  /** Only finishing settles an operation. */
  lemma SettledBefore(b: ControlledBooks, action: ControlledRuns.Action, p: Id)
    requires p in ControlledRuns.Acted(b, action).operations
    requires ControlledRuns.Acted(b, action).operations[p].state == OpSettled
    requires !action.FinishOperation?
    ensures p in b.operations && b.operations[p] == ControlledRuns.Acted(b, action).operations[p]
  {
    hide BeginHold, DispatchError, RecordCourse, BindTarget, TaskIllFormed, QuoteHold, CreditCourseOf, StoredStep,
         Billing.HoldEntries, ReservationFor, QuoteIllFormed, QuoteMatches, FinalAmount, Normalized, ActualOf,
         FindStep;
  }

  lemma OperationStays(b: ControlledBooks, action: Action, b': ControlledBooks, p: Id)
    requires p in b.operations && p in b'.operations && b'.operations[p] == b.operations[p] && OperationCharged(b, p)
    requires Structure(b) && Next(b, action, b') && Reached(b, action) != Some(b.operations[p].hold)
    ensures OperationCharged(b', p)
  {
    hide Structure, Next, Reached, ChargeOn, OwnedByStep, ControlledRuns.HoldsSound, ControlledRuns.Sound, Inv,
         ForeignShaped, ForeignBounded, Solvent, TablesSound, LedgerSound;
    StructureParts(b);
    ControlledRuns.SoundParts(b);
    ControlledRuns.UnownedHold(b, p);
    if b.operations[p].state == OpSettled {
      CommittedStays(b, action, b', b.operations[p].hold);
    }
  }

  lemma FinishCharges(b: ControlledBooks, parent: Id, outcome: Option<bool>)
    requires Structure(b) && parent in b.operations && BookedAt(b.core, b.operations[parent].hold)
    requires Finish(b, parent, outcome).books != b
    ensures parent in Finish(b, parent, outcome).books.operations
    ensures OperationCharged(Finish(b, parent, outcome).books, parent)
  {
    hide Structure, Finish, BookedAt, Effected, ChargeOn, OwnedByStep, ControlledRuns.HoldsSound, Inv, ForeignShaped,
         ForeignBounded, Solvent, TablesSound, LedgerSound, ControlledRuns.Sound, ControlledRuns.StepsSound, Charged;
    var b' := Finish(b, parent, outcome).books;
    StructureParts(b);
    ControlledRuns.SoundParts(b);
    var e := ControlledRuns.FinishEffect(b, parent, outcome);
    ControlledRuns.UnownedHold(b, parent);
    ClosedIsCharged(b, b'.core, b.operations[parent].hold, b'.operations[parent].actual.value);
  }

  // Quotes

  lemma SameFound(b: ControlledBooks, action: Action, b': ControlledBooks, id: nat, r: Id)
    requires id < |b.core.reservations| && !OwnedByStep(b.core, id)
    requires id < |b'.core.reservations| && b'.core.reservations[id].request == r
    requires Structure(b) && Next(b, action, b')
    ensures ReservationFor(b'.core.reservations, r) == Some(id)
  {
    hide Structure, Next, OwnedByStep, Inv, TablesSound, ReservationFor;
    StepStays(b, action, b');
    StepKeepsInv(b, action, b');
    InvTables(b'.core);
    assert ControlledRuns.HoldStays(b.core, b'.core, id);
    ControlledRuns.StillNoStep(b'.core, id, r);
  }

  lemma QuoteStays(b: ControlledBooks, action: Action, b': ControlledBooks, r: Id)
    requires r in b.settlements && r in b'.settlements && b'.settlements[r].actual == b.settlements[r].actual
    requires QuoteCharge(b, r)
    requires Structure(b) && Next(b, action, b') && Reached(b, action) != ReservationFor(b.core.reservations, r)
    ensures QuoteCharge(b', r)
  {
    hide Structure, Next, Reached, ChargeOn, OwnedByStep, ControlledRuns.QuotesSound, ControlledRuns.Sound, Inv,
         ForeignShaped, ForeignBounded, Solvent, TablesSound, LedgerSound, ReservationFor;
    StructureParts(b);
    ControlledRuns.SoundParts(b);
    SettledIsQuoted(b, r);
    ControlledRuns.UnownedQuote(b, r);
    var id := ReservationFor(b.core.reservations, r).value;
    CommittedStays(b, action, b', id);
    SameFound(b, action, b', id, r);
  }

  lemma SettledIsQuoted(b: ControlledBooks, r: Id)
    requires ControlledRuns.QuotesSound(b) && r in b.settlements
    ensures r in b.quotes
  {
    hide ReservationFor;
  }

  lemma CreditCharged(b: ControlledBooks, receipt: Receipt)
    requires Structure(b) && CreditCourseOf(b, receipt).ChargeQuote?
    requires ReservationFor(b.core.reservations, receipt.request).Some?
    requires BookedAt(b.core, ReservationFor(b.core.reservations, receipt.request).value)
    ensures receipt.request in ApplyCredit(b, receipt).books.settlements
    ensures QuoteCharge(ApplyCredit(b, receipt).books, receipt.request)
  {
    hide Structure, BookedAt, Effected, ChargeOn, OwnedByStep, ControlledRuns.QuotesSound, ControlledRuns.Sound, Inv,
         ForeignShaped, ForeignBounded, Solvent, TablesSound, LedgerSound, Charged, CreditCourseOf, ReservationFor,
         FinalAmount, ApplyCredit, Normalized, Next, Reached;
    var b', r := ApplyCredit(b, receipt).books, receipt.request;
    StructureParts(b);
    ControlledRuns.SoundParts(b);
    CreditSettles(b, receipt);
    ControlledRuns.UnownedQuote(b, r);
    ControlledRuns.CreditEffected(b, receipt);
    var id := ReservationFor(b.core.reservations, r).value;
    ClosedIsCharged(b, b'.core, id, FinalAmount(receipt));
    CreditNext(b, receipt);
    EffectRequest(b.core, b'.core, ControlledRuns.CreditEffect(b, receipt), id);
    SameFound(b, Billed(ControlledRuns.CreditReceipt(receipt)), b', id, r);
  }

  lemma EffectRequest(core: Db, core': Db, e: Effect, id: nat)
    requires Effected(core, core', e) && id < |core.reservations|
    ensures id < |core'.reservations| && core'.reservations[id].request == core.reservations[id].request
  {
    hide Effected;
    EffectOwners(core, core', e, id);
  }

  lemma CreditNext(b: ControlledBooks, receipt: Receipt)
    ensures Next(b, Billed(ControlledRuns.CreditReceipt(receipt)), ApplyCredit(b, receipt).books)
  {
    hide ApplyCredit, Runs.After, PlainMoves.Acted;
  }

  lemma CreditSettles(b: ControlledBooks, receipt: Receipt)
    requires CreditCourseOf(b, receipt).ChargeQuote?
    ensures var b', r := ApplyCredit(b, receipt).books, receipt.request;
            && r in b.quotes && r in b'.settlements && b'.settlements[r].actual == FinalAmount(receipt)
    ensures ReservationFor(b.core.reservations, receipt.request).Some?
    ensures ControlledRuns.CreditEffect(b, receipt)
            == Close(ReservationFor(b.core.reservations, receipt.request).value, Some(FinalAmount(receipt)))
  {
    hide CreditCourseOf, ReservationFor, FinalAmount, Normalized, Billing.HoldEntries;
  }

  /** Only a charge settles a quote. */
  lemma QuoteSettledBefore(b: ControlledBooks, action: ControlledRuns.Action, r: Id)
    requires r in ControlledRuns.Acted(b, action).settlements
    requires !(action.CreditReceipt? && action.receipt.request == r && CreditCourseOf(b, action.receipt).ChargeQuote?)
    ensures r in b.settlements && ControlledRuns.Acted(b, action).settlements[r].actual == b.settlements[r].actual
  {
    hide BeginHold, DispatchError, RecordCourse, BindTarget, TaskIllFormed, QuoteHold, CreditCourseOf, StoredStep,
         Billing.HoldEntries, ReservationFor, QuoteIllFormed, QuoteMatches, FinalAmount, Normalized, ActualOf,
         FindStep, FinishCharge;
  }

  // Every step

  /** The hold of a V1 operation never changes. */
  lemma SameOperation(b: ControlledBooks, action: Action, b': ControlledBooks, p: Id)
    requires p in b'.operations && b'.operations[p].state == OpSettled
    requires Structure(b) && Next(b, action, b')
    ensures p in b.operations && b.operations[p].hold == b'.operations[p].hold
    ensures !(action.Billed? && action.billed.FinishOperation? && action.billed.parent == p) ==>
              b.operations[p] == b'.operations[p]
  {
    hide Structure, Runs.After, PlainMoves.Acted, QuietDone;
    if action.Billed? {
      if action.billed.FinishOperation? {
        hide ControlledRuns.Acted, Finish, Structure;
        FinishedAlone(b, action.billed.parent, action.billed.videoOutcome, p);
        FinishIs(b, action, b');
      } else {
        hide ControlledRuns.Acted;
        BilledIs(b, action, b');
        SettledBefore(b, action.billed, p);
      }
    }
  }

  lemma BilledIs(b: ControlledBooks, action: Action, b': ControlledBooks)
    requires Next(b, action, b') && action.Billed?
    ensures b' == ControlledRuns.Acted(b, action.billed)
  {
    hide ControlledRuns.Acted, Runs.After, PlainMoves.Acted, QuietDone;
  }

  lemma FinishIs(b: ControlledBooks, action: Action, b': ControlledBooks)
    requires Next(b, action, b') && action.Billed? && action.billed.FinishOperation?
    ensures b' == Finish(b, action.billed.parent, action.billed.videoOutcome).books
  {
    hide Runs.After, PlainMoves.Acted, QuietDone, Finish;
  }

  lemma FinishedAlone(b: ControlledBooks, parent: Id, outcome: Option<bool>, p: Id)
    requires p in Finish(b, parent, outcome).books.operations
    ensures p in b.operations && Finish(b, parent, outcome).books.operations[p].hold == b.operations[p].hold
    ensures p != parent ==> Finish(b, parent, outcome).books.operations[p] == b.operations[p]
  {
    hide FinishCharge, Billing.HoldEntries, ReservationFor;
  }

  /** A settled operation's charge is on the ledger once it is made, and stays there unless its hold is reached for. */
  lemma StepKeepsOperation(b: ControlledBooks, action: Action, b': ControlledBooks, p: Id)
    requires Structure(b) && Next(b, action, b')
    requires p in b.operations && p in b'.operations && b'.operations[p].state == OpSettled
    requires BookedAt(b.core, b.operations[p].hold) && Reached(b, action) != Some(b.operations[p].hold)
    requires OperationCharged(b, p)
    ensures OperationCharged(b', p)
  {
    hide Structure, Next, Charged, Reached, Finish, BookedAt;
    SameOperation(b, action, b', p);
    if b'.operations[p] == b.operations[p] {
      OperationStays(b, action, b', p);
    } else {
      FinishIs(b, action, b');
      FinishCharges(b, p, action.billed.videoOutcome);
    }
  }

  /** In every reachable state the ledger charged each settled operation what its record says, if its hold was left alone. */
  lemma {:induction false} ReachableCharge(books: seq<ControlledBooks>, actions: seq<Action>, i: nat, p: Id)
    requires |books| == |actions| + 1 && i < |books|
    requires p in books[i].operations && books[i].operations[p].state == OpSettled
    requires !HoldReached(books, actions, i, books[i].operations[p].hold)
    requires Run(books, actions)
    ensures OperationCharged(books[i], p)
  {
    hide Structure, Next, Reached, OperationCharged, BookedAt, OwnedByStep, ControlledRuns.HoldsSound,
         ControlledRuns.Sound;
    if i > 0 {
      var before, hold := books[i - 1], books[i].operations[p].hold;
      ReachableStructure(books, actions, i - 1);
      SameOperation(before, actions[i - 1], books[i], p);
      assert Reached(before, actions[i - 1]) != Some(hold);
      assert !HoldReached(books, actions, i - 1, hold);
      HeldSomewhere(before, p);
      ReachableBooked(books, actions, i - 1, hold);
      if before.operations[p].state == OpSettled {
        ReachableCharge(books, actions, i - 1, p);
      } else {
        NotYetSettled(before, p);
      }
      StepKeepsOperation(before, actions[i - 1], books[i], p);
    }
  }

  lemma NotYetSettled(b: ControlledBooks, p: Id)
    requires p in b.operations && b.operations[p].state != OpSettled
    ensures OperationCharged(b, p)
  {
  }

  lemma HeldSomewhere(b: ControlledBooks, p: Id)
    requires Structure(b) && p in b.operations
    ensures b.operations[p].hold < |b.core.reservations| && !OwnedByStep(b.core, b.operations[p].hold)
  {
    hide Structure, OwnedByStep, ControlledRuns.HoldsSound, ControlledRuns.Sound, Inv, ForeignShaped, ForeignBounded,
         Solvent, TablesSound, LedgerSound;
    StructureParts(b);
    ControlledRuns.SoundParts(b);
    ControlledRuns.UnownedHold(b, p);
  }

  predicate ChargesQuote(b: ControlledBooks, action: Action, r: Id) {
    && action.Billed? && action.billed.CreditReceipt? && action.billed.receipt.request == r
    && CreditCourseOf(b, action.billed.receipt).ChargeQuote?
  }

  /** Only a charge settles a quote. */
  lemma SameQuote(b: ControlledBooks, action: Action, b': ControlledBooks, r: Id)
    requires r in b'.settlements && !ChargesQuote(b, action, r)
    requires Next(b, action, b')
    ensures r in b.settlements && b'.settlements[r].actual == b.settlements[r].actual
  {
    hide Runs.After, PlainMoves.Acted, QuietDone, CreditCourseOf, ControlledRuns.Acted;
    if action.Billed? {
      QuoteSettledBefore(b, action.billed, r);
    }
  }

  lemma CreditIs(b: ControlledBooks, action: Action, b': ControlledBooks, r: Id)
    requires Next(b, action, b') && ChargesQuote(b, action, r)
    ensures b' == ApplyCredit(b, action.billed.receipt).books && r in b.quotes
    ensures ReservationFor(b.core.reservations, r).Some?
  {
    hide Runs.After, PlainMoves.Acted, QuietDone, CreditCourseOf, ApplyCredit, ReservationFor;
    CreditSettles(b, action.billed.receipt);
  }

  lemma StepKeepsQuote(b: ControlledBooks, action: Action, b': ControlledBooks, r: Id)
    requires r in b'.settlements && ReservationFor(b.core.reservations, r).Some?
    requires BookedAt(b.core, ReservationFor(b.core.reservations, r).value)
    requires Reached(b, action) != ReservationFor(b.core.reservations, r)
    requires r in b.settlements ==> QuoteCharge(b, r)
    requires Structure(b) && Next(b, action, b')
    ensures QuoteCharge(b', r)
  {
    hide Structure, Next, Charged, Reached, BookedAt, CreditCourseOf, ReservationFor, ApplyCredit, QuoteCharge;
    if ChargesQuote(b, action, r) {
      CreditIs(b, action, b', r);
      CreditCharged(b, action.billed.receipt);
    } else {
      SameQuote(b, action, b', r);
      QuoteStays(b, action, b', r);
    }
  }

  ghost predicate QuoteHeld(b: ControlledBooks, b': ControlledBooks, r: Id) {
    var found := ReservationFor(b.core.reservations, r);
    && found.Some? && found.value < |b.core.reservations| && !OwnedByStep(b.core, found.value)
    && ReservationFor(b'.core.reservations, r) == found
  }

  /** The hold of a settled quote was there a step before, and was no step's. */
  lemma QuoteHeldBefore(b: ControlledBooks, action: Action, b': ControlledBooks, r: Id)
    requires r in b'.settlements
    requires Structure(b) && Next(b, action, b')
    ensures QuoteHeld(b, b', r)
  {
    hide Structure, Next, OwnedByStep, ControlledRuns.QuotesSound, ControlledRuns.Sound, Inv, ForeignShaped,
         ForeignBounded, Solvent, TablesSound, LedgerSound, ReservationFor, CreditCourseOf, ControlledRuns.ForeignStay;
    StructureParts(b);
    ControlledRuns.SoundParts(b);
    if ChargesQuote(b, action, r) {
      CreditIs(b, action, b', r);
    } else {
      SameQuote(b, action, b', r);
      SettledIsQuoted(b, r);
    }
    ControlledRuns.UnownedQuote(b, r);
    var id := ReservationFor(b.core.reservations, r).value;
    StepStays(b, action, b');
    RequestStays(b.core, b'.core, id);
    SameFound(b, action, b', id, r);
  }

  lemma RequestStays(core: Db, core': Db, id: nat)
    requires ControlledRuns.ForeignStay(core, core') && id < |core.reservations| && !OwnedByStep(core, id)
    ensures id < |core'.reservations| && core'.reservations[id].request == core.reservations[id].request
  {
    hide OwnedByStep;
    assert ControlledRuns.HoldStays(core, core', id);
  }

  /** And each settled quote likewise. */
  lemma {:induction false} ReachableQuoteCharge(books: seq<ControlledBooks>, actions: seq<Action>, i: nat, r: Id)
    requires |books| == |actions| + 1 && i < |books|
    requires r in books[i].settlements
    requires ReservationFor(books[i].core.reservations, r).Some? ==>
               !HoldReached(books, actions, i, ReservationFor(books[i].core.reservations, r).value)
    requires Run(books, actions)
    ensures QuoteCharge(books[i], r)
  {
    hide Structure, Next, Reached, QuoteCharge, BookedAt, OwnedByStep, ReservationFor;
    if i > 0 {
      var before := books[i - 1];
      ReachableStructure(books, actions, i - 1);
      QuoteHeldBefore(before, actions[i - 1], books[i], r);
      var id := ReservationFor(before.core.reservations, r).value;
      assert Reached(before, actions[i - 1]) != Some(id);
      assert !HoldReached(books, actions, i - 1, id);
      ReachableBooked(books, actions, i - 1, id);
      if r in before.settlements {
        ReachableQuoteCharge(books, actions, i - 1, r);
      }
      StepKeepsQuote(before, actions[i - 1], books[i], r);
    }
  }
}
