/**
  Two runs of V1 billing. In the first a receipt contradicts a verified step, and one more receipt takes the
  conflict away again. In the second the hold of an operation is released as a plain one and then suspended by
  a receipt, and the Key's credits are counted twice.
 */
module BilledWitness {
  import opened Wrappers
  import opened Model
  import opened RequestStates
  import opened Ledger
  import opened EventGroup
  import opened Billing
  import opened Grants
  import opened Money
  import opened Solvency
  import opened Holds
  import opened ForeignMoves
  import opened Plain
  import opened Text
  import opened JointRuns
  import opened JointMoney
  import opened Witness
  import Controlled
  import ControlledRuns
  import PlainMoves
  import Runs

  const WHO := Person(false)
  const SNAPSHOT := Snapshot(100, 1)
  const OPERATION_HOLD := Reservation("u", "k", "r", 100, HoldHeld, MAX_I64, 0, None, HoldGroup(0))
  const TAKEN := Entry(0, ReserveEvent, 100, -100, Some("r"), "u", Some("k"), HoldGroup(0), 1, None)

  const BEGUN :=
    START.(
    core := WithCredit(false).(
    requests := map["r" := Request(WHO, Reserved, 1)], reservations := [OPERATION_HOLD], ledger := [GRANTED, TAKEN]),
    operations := map["r" := Controlled.ControlledOperation("k", 0, 100, None, Controlled.OpHeld)])

  const PENDING_STEP := Controlled.ControlledStep("r", "r", Chat, None, None, None, Controlled.StepPending)

  const DISPATCHED :=
    BEGUN.(steps := [PENDING_STEP],
           operations := map["r" := Controlled.ControlledOperation("k", 0, 100, None, Controlled.OpSubmitted)])

  lemma CreditedCommits()
    ensures Available([GRANTED], 0) == 100
    ensures Committed(WithCredit(false)) == 100 && !CommitmentOverflows(WithCredit(false))
  {
    assert [GRANTED][..0] == [];
    assert CommittedTo(WithCredit(false), 0) == 0;
    assert CommittedTo(WithCredit(false), 1) == 100;
  }

  lemma BeginHolds()
    ensures Controlled.BeginHold(START.(core := WithCredit(false)), 1, "r", SNAPSHOT, 0) == Ok(OPERATION_HOLD)
  {
    hide Committed, CommitmentOverflows, Available;
    CreditedCommits();
  }

  lemma Begins()
    ensures ControlledRuns.Acted(START.(core := WithCredit(false)), ControlledRuns.BeginOperation(1, "r", SNAPSHOT, 0))
            == BEGUN
  {
    hide Controlled.BeginHold;
    BeginHolds();
    assert HoldEntries([ACCOUNT], OPERATION_HOLD, ReserveEvent, 100, -100, None) == [TAKEN];
    assert [GRANTED] + [TAKEN] == [GRANTED, TAKEN];
    assert [] + [OPERATION_HOLD] == [OPERATION_HOLD];
  }

  lemma Dispatches()
    ensures ControlledRuns.Acted(BEGUN, ControlledRuns.DispatchStep("r", "r", Chat)) == DISPATCHED
  {
    assert [] + [PENDING_STEP] == [PENDING_STEP];
  }

  lemma Bills(b: Books, action: ControlledRuns.Action)
    ensures Next(b, Billed(action), ControlledRuns.Acted(b, action))
  {
    hide ControlledRuns.Acted, Runs.After, PlainMoves.Acted;
  }

  /** A run is built up one V1 transaction at a time. */
  lemma GoesBilled(books: seq<Books>, actions: seq<Action>, action: ControlledRuns.Action)
    returns (books': seq<Books>, actions': seq<Action>)
    requires |books| == |actions| + 1
    requires Run(books, actions)
    ensures |books'| == |actions'| + 1 && actions' == actions + [Billed(action)]
    ensures books' == books + [ControlledRuns.Acted(books[|actions|], action)]
    ensures Run(books', actions')
  {
    hide Next, ControlledRuns.Acted, Run;
    Bills(books[|actions|], action);
    var b' := ControlledRuns.Acted(books[|actions|], action);
    Extend(books, actions, Billed(action), b');
    books', actions' := books + [b'], actions + [Billed(action)];
  }

  lemma RunToCredited() returns (books: seq<Books>, actions: seq<Action>)
    ensures |books| == |actions| + 1 && books[|actions|] == START.(core := WithCredit(false))
    ensures Run(books, actions)
  {
    hide Next, Run, GrantKey;
    Started();
    Created(false);
    Extend([START], [], QuietWork, START.(core := NewKey(false)));
    Credit(false);
    books, actions := Goes([START] + [START.(core := NewKey(false))], [] + [QuietWork],
                           Runs.CreditKey("k", 100), WithCredit(false));
  }

  lemma RunToDispatched() returns (books: seq<Books>, actions: seq<Action>)
    ensures |books| == |actions| + 1 && books[|actions|] == DISPATCHED
    ensures Run(books, actions)
  {
    hide ControlledRuns.Acted, Run;
    books, actions := RunToCredited();
    var begin := ControlledRuns.BeginOperation(1, "r", SNAPSHOT, 0);
    books, actions := GoesBilled(books, actions, begin);
    Begins();
    var dispatch := ControlledRuns.DispatchStep("r", "r", Chat);
    books, actions := GoesBilled(books, actions, dispatch);
    Dispatches();
  }

  // A conflict that comes and goes

  function Reported(amount: int): Receipt {
    Receipt("r", Final, Some(amount), "credits", "s", None, 3)
  }

  function Recording(amount: int): ControlledRuns.Action {
    ControlledRuns.RecordReceipt("r", "r", Chat, Reported(amount))
  }

  /** The step after its first receipt, in the given state, with that receipt still its own. */
  function StepAfter(amount: int, state: Controlled.StepState): Controlled.ControlledStep {
    Controlled.ControlledStep("r", "r", Chat, Some(Controlled.ReceiptDigest(Reported(amount))), Some(amount), None, state)
  }

  function Stored(amount: int): Controlled.StoredReceipt {
    Controlled.StoredReceipt(Controlled.Reported(Final), Some(amount))
  }

  const VERIFIED :=
    DISPATCHED.(steps := [StepAfter(10, Controlled.StepVerified)],
                receipts := map[Controlled.ReceiptDigest(Reported(10)) := Stored(10)])

  const DISPUTED :=
    VERIFIED.(
    steps := [StepAfter(10, Controlled.StepConflict)],
    receipts := VERIFIED.receipts[Controlled.ReceiptDigest(Reported(20)) :=
                                    Controlled.StoredReceipt(Controlled.Contradicting, Some(20))],
    core := DISPATCHED.core.(blocks := {"k"}, reservations := [OPERATION_HOLD.(state := HoldUnknown)]),
    operations := map["r" := Controlled.ControlledOperation("k", 0, 100, None, Controlled.OpUnknown)])

  lemma SourceGiven(amount: int)
    requires amount >= 0
    ensures !Controlled.ReceiptRefused(Reported(amount), "r", Chat)
  {
    Solid("s");
  }

  lemma FirstVerifies()
    ensures ControlledRuns.Acted(DISPATCHED, Recording(10)) == VERIFIED
  {
    hide Controlled.ReceiptRefused;
    SourceGiven(10);
    assert DISPATCHED.steps[0 := StepAfter(10, Controlled.StepVerified)] == [StepAfter(10, Controlled.StepVerified)];
  }

  lemma SecondDisputes()
    ensures ControlledRuns.Acted(VERIFIED, Recording(20)) == DISPUTED
  {
    hide Controlled.ReceiptRefused;
    SourceGiven(20);
    assert {} + {"k"} == {"k"};
    assert VERIFIED.steps[0 := StepAfter(10, Controlled.StepConflict)] == [StepAfter(10, Controlled.StepConflict)];
  }

  lemma ThirdVerifies()
    ensures ControlledRuns.Acted(DISPUTED, Recording(30)).steps == [StepAfter(30, Controlled.StepVerified)]
  {
    hide Controlled.ReceiptRefused;
    SourceGiven(30);
    assert DISPUTED.steps[0 := StepAfter(30, Controlled.StepVerified)] == [StepAfter(30, Controlled.StepVerified)];
  }

  /** A run whose last but one step puts a V1 step in conflict and whose last step takes it out again. */
  lemma ConflictComesAndGoes() returns (books: seq<Books>, actions: seq<Action>)
    ensures |books| == |actions| + 1 && |actions| > 2
    ensures Run(books, actions)
    ensures var k := |actions|;
            && |books[k - 2].steps| == |books[k - 1].steps| == |books[k].steps| == 1
            && books[k - 2].steps[0].state == Controlled.StepVerified
            && books[k - 1].steps[0].state == Controlled.StepConflict
            && books[k].steps[0].state == Controlled.StepVerified
  {
    hide ControlledRuns.Acted, Run;
    books, actions := RunToDispatched();
    FirstVerifies();
    books, actions := GoesBilled(books, actions, Recording(10));
    var first := books;
    SecondDisputes();
    books, actions := GoesBilled(first, actions, Recording(20));
    var second := books;
    ThirdVerifies();
    books, actions := GoesBilled(second, actions, Recording(30));
    assert books[|actions| - 1] == second[|second| - 1];
    assert books[|actions| - 2] == first[|first| - 1];
  }

  // A hold that is released and then suspended

  const RETURNED := Entry(0, ReleaseEvent, 100, 100, Some("r"), "u", Some("k"), HoldGroup(0), 1, None)

  const RELEASED :=
    DISPATCHED.(core := DISPATCHED.core.(reservations := [OPERATION_HOLD.(state := HoldReleased)],
                                         ledger := [GRANTED, TAKEN, RETURNED]))

  const RELEASE := PlainMoves.SettleHold("u", "k", 0, Releases, None)

  const PENDING := ControlledRuns.RecordReceipt("r", "r", Chat, Receipt("r", Pending, None, "credits", "s", None, 3))

  lemma ReleaseSettles()
    ensures Settle(DISPATCHED.core, "u", "k", 0, Releases, None).db == RELEASED.core
  {
    hide BalanceOf;
    assert !HeldByStep(DISPATCHED.core, 0);
    assert HoldEntries([ACCOUNT], OPERATION_HOLD, ReleaseEvent, 100, 100, None) == [RETURNED];
    assert [GRANTED, TAKEN] + [RETURNED] == [GRANTED, TAKEN, RETURNED];
    assert [OPERATION_HOLD][0 := OPERATION_HOLD.(state := HoldReleased)] == [OPERATION_HOLD.(state := HoldReleased)];
    assert DISPATCHED.core.requests["r" := DISPATCHED.core.requests["r"]] == DISPATCHED.core.requests;
  }

  lemma ReleaseTakesEffect()
    ensures Next(DISPATCHED, Plainly(RELEASE), RELEASED)
  {
    hide Settle, Runs.After, ControlledRuns.Acted;
    ReleaseSettles();
  }

  lemma PendingReopens()
    ensures ControlledRuns.Reopens(RELEASED, PENDING)
    ensures ControlledRuns.Acted(RELEASED, PENDING).core
            == RELEASED.core.(reservations := [OPERATION_HOLD.(state := HoldUnknown)])
  {
    Solid("s");
    assert [OPERATION_HOLD.(state := HoldReleased)][0 := OPERATION_HOLD.(state := HoldUnknown)]
        == [OPERATION_HOLD.(state := HoldUnknown)];
  }

  lemma CountedTwice()
    ensures Available([GRANTED, TAKEN, RETURNED], 0) == 100 && SettledOn([GRANTED, TAKEN, RETURNED], 0) == 0
    ensures GrantedOn([GRANTED, TAKEN, RETURNED], 0) == 100
    ensures HeldOn([OPERATION_HOLD.(state := HoldUnknown)], 0) == 100
  {
    AppendEntry([], GRANTED);
    AppendEntry([GRANTED], TAKEN);
    AppendEntry([GRANTED, TAKEN], RETURNED);
    assert [] + [GRANTED] == [GRANTED] && [GRANTED] + [TAKEN] == [GRANTED, TAKEN];
    assert [GRANTED, TAKEN] + [RETURNED] == [GRANTED, TAKEN, RETURNED];
    AppendReservation([], OPERATION_HOLD.(state := HoldUnknown), 0);
    assert [] + [OPERATION_HOLD.(state := HoldUnknown)] == [OPERATION_HOLD.(state := HoldUnknown)];
  }

  lemma ExtendRun(books: seq<Books>, actions: seq<Action>, action: Action, b': Books)
    requires |books| == |actions| + 1
    requires Next(books[|actions|], action, b')
    requires Run(books, actions)
    ensures Run(books + [b'], actions + [action])
  {
    hide Next;
  }

  /** A run that ends with 200 credits allocated to a Key that was granted 100. */
  lemma ReopenedHoldCountsTwice() returns (books: seq<Books>, actions: seq<Action>)
    ensures |books| == |actions| + 1 && |actions| > 0
    ensures Run(books, actions)
    ensures Reached(books[|actions| - 1], actions[|actions| - 1]) == Some(0)
    ensures AllocatedOn(books[|actions|].core, 0) == 200 && GrantedOn(books[|actions|].core.ledger, 0) == 100
  {
    hide ControlledRuns.Acted, Run, Next, Available, HeldOn, SettledOn,
         GrantedOn;
    books, actions := RunToDispatched();
    ReleaseTakesEffect();
    Extend(books, actions, Plainly(RELEASE), RELEASED);
    books, actions := books + [RELEASED], actions + [Plainly(RELEASE)];
    PendingReopens();
    Bills(RELEASED, PENDING);
    ExtendRun(books, actions, Billed(PENDING), ControlledRuns.Acted(RELEASED, PENDING));
    books, actions := books + [ControlledRuns.Acted(RELEASED, PENDING)], actions + [Billed(PENDING)];
    CountedTwice();
  }
}
