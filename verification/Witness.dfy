/**
  Runs that do something. In the first a Key is credited, a step is held, dispatched and charged more than was
  held: the guards can all be passed, and the overdraft bound is reached. The second binds a task to a video
  that was settled without charge, and its event group fails the check. In the third the receipt that settled it
  comes again after that, and freezes the step.
 */
module Witness {
  import opened Wrappers
  import opened Model
  import opened Ledger
  import opened EventGroup
  import opened Billing
  import opened Settling
  import opened Grants
  import opened Invariant
  import opened Money
  import opened Solvency
  import opened Finality
  import opened Receipts
  import opened Text
  import Controlled
  import opened JointRuns
  import opened JointMoney
  import ControlledRuns
  import Integrity
  import PlainMoves
  import Redelivery
  import Runs

  type Books = Controlled.ControlledBooks

  // The V2 ledger; `video` is whether the step is a video, and a chat otherwise

  function Endpoint(video: bool): Id {
    if video then "videos" else "chat"
  }

  function KindOf(video: bool): StepKind {
    if video then Video else Chat
  }

  function Person(video: bool): Identity {
    Identity("u", "k", Endpoint(video), "m", "h")
  }

  function Auth(video: bool): Authorization {
    Authorization("b", "r", "r", "k", "h", Endpoint(video), "m", "a", "i", "p", "v", 100, 10)
  }

  const ACCOUNT := Account(KeyScope, "u", Some("k"), 1, true, Ready)
  const HOLD := Reservation("u", "k", "r", 100, HoldHeld, 10, 0, None, HoldGroup(0))

  const GRANTED := Entry(0, GrantEvent, 100, 100, None, "u", Some("k"), AdminGroup(0), 1, None)
  const RESERVED := Entry(0, ReserveEvent, 100, -100, Some("r"), "u", Some("k"), HoldGroup(0), 1, Some(1))

  function NewKey(video: bool): Db {
    Runs.EMPTY.(keys := map["k" := ApiKey("u", true, 1)], requests := map["r" := Request(Person(video), Received, 1)])
  }

  function WithCredit(video: bool): Db {
    NewKey(video).(accounts := [ACCOUNT], ledger := [GRANTED])
  }

  function Held(video: bool): Db {
    WithCredit(video).(
    requests := map["r" := Request(Person(video), Reserved, 1)],
    reservations := [HOLD],
    ledger := [GRANTED, RESERVED],
    operations := map["r" := Operation("k", ExecReady)],
    steps := map["r" := NewStep("r", KindOf(video), Auth(video), 0)],
    revisions := map["r" := [FirstRevision(Auth(video), 1)]])
  }

  function Sent(video: bool): Db {
    Held(video).(
    requests := map["r" := Request(Person(video), Dispatched, 1)],
    operations := map["r" := Operation("k", ExecRunning)],
    steps := map["r" := NewStep("r", KindOf(video), Auth(video), 0).(dispatched := true, exec := ExecRunning)])
  }

  lemma Solid(s: string)
    requires s != "" && !IsWhitespace(s[0])
    ensures !Blank(s)
  {
  }

  lemma Credit(video: bool)
    ensures GrantKey(NewKey(video), "k", 100) == Tx(WithCredit(video), Ok(Applied))
  {
  }

  lemma AuthComplete(video: bool)
    ensures !Incomplete(Auth(video))
  {
    Solid("b");
    Solid("r");
    Solid("k");
    Solid("h");
    Solid(Endpoint(video));
    Solid("m");
    Solid("a");
    Solid("i");
    Solid("p");
    Solid("v");
  }

  lemma BeginPasses(video: bool)
    ensures BeginVerdict(WithCredit(video), 1, "r", KindOf(video), Auth(video)) == Proceed
    ensures HoldFor(WithCredit(video), "u", "k", "r", 100, 10) == Ok(HOLD)
  {
    hide Incomplete, Blank;
    AuthComplete(video);
    assert !Blank("r") by { Solid("r"); }
    assert CountedOperations(WithCredit(video), "k", "r") == {};
    assert CountedRequests(WithCredit(video), "k", "r") == {};
    assert Available([GRANTED], 0) == 100 by { assert [GRANTED][..0] == []; }
  }

  lemma Hold(video: bool)
    ensures Begin(WithCredit(video), 1, "r", KindOf(video), Auth(video)) == Tx(Held(video), Ok(Applied))
  {
    hide BeginVerdict, HoldFor;
    BeginPasses(video);
    var auth := Auth(video);
    assert [GRANTED] + [RESERVED] == [GRANTED, RESERVED];
    assert [] + [HOLD] == [HOLD];
    assert [] + [FirstRevision(auth, 1)] == [FirstRevision(auth, 1)];
    assert HoldEntries([ACCOUNT], HOLD, ReserveEvent, 100, -100, Some(1)) == [RESERVED];
  }

  lemma Created(video: bool)
    ensures Next(START, QuietWork, START.(core := NewKey(video)))
  {
    hide Runs.After, ControlledRuns.Acted, PlainMoves.Acted;
  }

  lemma Budgets(core: Db, action: Runs.Action, core': Db)
    requires !action.OtherWork? && core' == Runs.After(core, action)
    ensures Next(START.(core := core), Budgeted(action), START.(core := core'))
  {
    hide Runs.After;
  }

  lemma Started()
    ensures Run([START], [])
  {
    hide Next;
  }

  /** A run is built up one budget transaction at a time. */
  lemma Goes(books: seq<Books>, actions: seq<Action>, action: Runs.Action, core': Db)
    returns (books': seq<Books>, actions': seq<Action>)
    requires |books| == |actions| + 1 && books[|actions|] == START.(core := books[|actions|].core)
    requires !action.OtherWork? && core' == Runs.After(books[|actions|].core, action)
    requires Run(books, actions)
    ensures books' == books + [START.(core := core')] && actions' == actions + [Budgeted(action)]
    ensures Run(books', actions')
  {
    hide Next, Runs.After, Run;
    Budgets(books[|actions|].core, action, core');
    Extend(books, actions, Budgeted(action), START.(core := core'));
    books', actions' := books + [START.(core := core')], actions + [Budgeted(action)];
  }

  lemma RunToHeld(video: bool) returns (books: seq<Books>, actions: seq<Action>)
    ensures |books| == |actions| + 1 && books[|actions|] == START.(core := Held(video))
    ensures Run(books, actions)
  {
    hide Next, Run, GrantKey, Begin;
    Started();
    Created(video);
    Extend([START], [], QuietWork, START.(core := NewKey(video)));
    Credit(video);
    books, actions := Goes([START] + [START.(core := NewKey(video))], [] + [QuietWork],
                           Runs.CreditKey("k", 100), WithCredit(video));
    Hold(video);
    books, actions := Goes(books, actions, Runs.BeginOperation(1, "r", KindOf(video), Auth(video)), Held(video));
  }

  lemma CoreSound(books: seq<Books>, actions: seq<Action>)
    requires |books| == |actions| + 1
    requires Run(books, actions)
    ensures Inv(books[|actions|].core)
  {
    hide Run, Inv, Structure;
    ReachableStructure(books, actions, |actions|);
    StructureParts(books[|actions|]);
  }

  lemma HeldPasses(video: bool)
    requires Inv(Held(video))
    ensures GroupValid(Held(video), 0)
  {
    hide Inv, GroupValid;
    Integrity.PassesIffTaskFits(Held(video), "r");
  }

  const COMMITTED := Entry(0, CommitEvent, 120, -20, Some("r"), "u", Some("k"), HoldGroup(0), 1, Some(1))

  lemma Balances()
    ensures Available([GRANTED, RESERVED], 0) == 0
    ensures Available([GRANTED, RESERVED, COMMITTED], 0) == -20
  {
    AppendEntry([], GRANTED);
    AppendEntry([GRANTED], RESERVED);
    AppendEntry([GRANTED, RESERVED], COMMITTED);
    assert [] + [GRANTED] == [GRANTED];
    assert [GRANTED] + [RESERVED] == [GRANTED, RESERVED];
    assert [GRANTED, RESERVED] + [COMMITTED] == [GRANTED, RESERVED, COMMITTED];
  }

  lemma Send(video: bool)
    requires Inv(Held(video))
    ensures Dispatch(Held(video), 2, "r", "b") == Tx(Sent(video), Ok(Applied))
  {
    hide Inv, DispatchVerdict;
    SendPasses(video);
  }

  lemma SendPasses(video: bool)
    requires Inv(Held(video))
    ensures DispatchVerdict(Held(video), 2, "r", "b") == Proceed
  {
    hide Inv, GroupValid, Available;
    HeldPasses(video);
    Balances();
  }

  lemma RunToSent(video: bool) returns (books: seq<Books>, actions: seq<Action>)
    ensures |books| == |actions| + 1 && books[|actions|] == START.(core := Sent(video))
    ensures Run(books, actions)
  {
    hide Run, Dispatch, Inv;
    books, actions := RunToHeld(video);
    CoreSound(books, actions);
    Send(video);
    books, actions := Goes(books, actions, Runs.DispatchStep(2, "r", "b"), Sent(video));
  }

  /** A step is dispatched and waits for its receipt, in a reachable state. */
  lemma SentIsOpen() returns (books: seq<Books>, actions: seq<Action>)
    ensures |books| == |actions| + 1 && Inv(books[|actions|].core) && Open(books[|actions|].core, "r")
    ensures Run(books, actions)
  {
    hide Run, Inv;
    books, actions := RunToSent(false);
    CoreSound(books, actions);
  }

  // A charge beyond the hold

  const INPUT := ReceiptInput("b", "a", "i", Receipt("r", Final, Some(120), "credits", "s", None, 3))

  lemma ReceiptCharges()
    ensures ReceiptCourse(Sent(false), INPUT) == Charge
  {
    hide Blank;
    assert !Blank("r") by { Solid("r"); }
    assert !Blank("s") by { Solid("s"); }
  }

  lemma Charged()
    ensures var after := ApplyReceipt(Sent(false), 3, INPUT).db;
            && after.ledger == [GRANTED, RESERVED, COMMITTED]
            && after.reservations == [HOLD.(state := HoldCommitted)]
            && "r" in after.settlements && after.settlements["r"].actual == 120
  {
    hide ReceiptCourse, InsertEvidence, InDebt;
    ReceiptCharges();
    assert HoldEntries([ACCOUNT], HOLD, CommitEvent, 120, -20, Some(1)) == [COMMITTED];
    assert [GRANTED, RESERVED] + [COMMITTED] == [GRANTED, RESERVED, COMMITTED];
    NoteKeepsRest(Sent(false), INPUT);
  }

  lemma NoteKeepsRest(db: Db, input: ReceiptInput)
    ensures forall hash, row ::
              InsertEvidence(db, "r", hash, row) == db.(evidence := InsertEvidence(db, "r", hash, row).evidence)
  {
  }

  /** A run in which the Key ends 20 credits below zero, exactly what its one charge exceeded its hold by. */
  lemma BoundIsReached() returns (books: seq<Books>, actions: seq<Action>)
    ensures |books| == |actions| + 1
    ensures Run(books, actions)
    ensures var core := books[|actions|].core;
            && Available(core.ledger, 0) == -20
            && core.reservations == [HOLD.(state := HoldCommitted)]
            && "r" in core.settlements && core.settlements["r"].actual == 120
  {
    hide Run, ApplyReceipt, Available;
    books, actions := RunToSent(false);
    books, actions := Goes(books, actions, Runs.DeliverReceipt(3, INPUT), ApplyReceipt(Sent(false), 3, INPUT).db);
    Charged();
    Balances();
  }

  // A late bind

  const FREE := ReceiptInput("b", "a", "i", Receipt("r", FailedNoCharge, None, "credits", "s", None, 3))

  lemma FreeCharges()
    ensures ReceiptCourse(Sent(true), FREE) == Charge
  {
    hide Blank;
    assert !Blank("r") by { Solid("r"); }
    assert !Blank("s") by { Solid("s"); }
  }

  /** The video is settled, and can still be given a task. */
  lemma FreeSettles()
    ensures Integrity.BindsSettled(ApplyReceipt(Sent(true), 3, FREE).db, Runs.BindTask("r", "t"))
  {
    hide ReceiptCourse, InsertEvidence, InDebt, HoldEntries;
    FreeCharges();
    assert !Blank("t") by { Solid("t"); }
    NoteKeepsRest(Sent(true), FREE);
  }

  /** A run that ends by binding a task to a video settled without charge, and with an event group that fails. */
  lemma LateBindFails() returns (books: seq<Books>, actions: seq<Action>)
    ensures |books| == |actions| + 1 && |actions| > 0 && Projected(actions[|actions| - 1]) == Runs.BindTask("r", "t")
    ensures Run(books, actions)
    ensures OwnedByStep(books[|actions|].core, 0) && !GroupValid(books[|actions|].core, 0)
  {
    hide Run, ApplyReceipt, Inv, Bind, GroupValid, Integrity.BindsSettled, Next;
    books, actions := RunToSent(true);
    CoreSound(books, actions);
    var settled := ApplyReceipt(Sent(true), 3, FREE).db;
    books, actions := Goes(books, actions, Runs.DeliverReceipt(3, FREE), settled);
    FreeSettles();
    CoreSound(books, actions);
    var bound := Bind(settled, "r", "t").db;
    Integrity.BoundAfterNoCharge(settled, "r", "t");
    Budgets(settled, Runs.BindTask("r", "t"), bound);
    Extend(books, actions, Budgeted(Runs.BindTask("r", "t")), START.(core := bound));
    books, actions := books + [START.(core := bound)], actions + [Budgeted(Runs.BindTask("r", "t"))];
    CoreSound(books, actions);
    BoundStep();
  }

  lemma SentStep()
    ensures OwnedByStep(Sent(true), 0) && Sent(true).reservations[0].request == "r"
  {
  }

  /** The step and its hold are there to the end. */
  lemma BoundStep()
    requires Inv(Sent(true))
    ensures var bound := Bind(ApplyReceipt(Sent(true), 3, FREE).db, "r", "t").db;
            OwnedByStep(bound, 0) && "r" in bound.steps && bound.steps["r"].reservation == 0
  {
    hide Inv, Bind, ApplyReceipt, OperationsAdvance, StepsAdvance, AccountsOf;
    SentStep();
    var settled := ApplyReceipt(Sent(true), 3, FREE).db;
    var bound := Bind(settled, "r", "t").db;
    ReceiptAdvances(Sent(true), 3, FREE);
    StillOwned(Sent(true), settled, 0);
    BindAdvances(settled, "r", "t");
    StillOwned(settled, bound, 0);
  }

  // The receipt that settled it comes once more

  lemma SettledFree()
    ensures var settled := ApplyReceipt(Sent(true), 3, FREE).db;
            && "r" in settled.steps && settled.steps["r"].fin == FinSettled && settled.steps["r"].kind == Video
            && HashOf(FREE) in EvidenceOf(settled, "r") && EvidenceOf(settled, "r")[HashOf(FREE)].actual == Some(0)
            && ApplyReceipt(Sent(true), 3, FREE).reply.Ok?
  {
    hide ReceiptCourse, InDebt, HoldEntries, HashOf;
    FreeCharges();
  }

  lemma NowUnwelcome()
    ensures var bound := Bind(ApplyReceipt(Sent(true), 3, FREE).db, "r", "t").db;
            "r" in bound.steps && Redelivery.Unwelcome(bound, FREE)
  {
    hide ApplyReceipt, HashOf, EvidenceOf, Blank;
    var settled := ApplyReceipt(Sent(true), 3, FREE).db;
    SettledFree();
    FreeSettles();
    Integrity.SettledBindTakesEffect(settled, "r", "t");
    BindKeepsEvidence(settled, "r", "t");
  }

  lemma BindKeepsEvidence(db: Db, r: Id, task: Id)
    ensures EvidenceOf(Bind(db, r, task).db, r) == EvidenceOf(db, r)
  {
    hide BindVerdict;
  }

  lemma ThreeOn(before: seq<Books>, a: Db, b: Db, c: Db, books: seq<Books>)
    requires before != []
    requires books == before + [START.(core := a)] + [START.(core := b)] + [START.(core := c)]
    ensures var k := |books| - 1;
            k > 2 && books[k].core == c && books[k - 1].core == b && books[k - 3] == before[|before| - 1]
  {
  }

  /** A run whose last step delivers a receipt that was accepted three steps before, and freezes the step. */
  lemma ReplayFreezes() returns (books: seq<Books>, actions: seq<Action>)
    ensures |books| == |actions| + 1 && |actions| > 2
    ensures actions[|actions| - 1] == actions[|actions| - 3] == Budgeted(Runs.DeliverReceipt(3, FREE))
    ensures Run(books, actions)
    ensures ApplyReceipt(books[|actions| - 3].core, 3, FREE).reply.Ok?
    ensures books[|actions|].core != books[|actions| - 1].core
  {
    hide Run, ApplyReceipt, Inv, Bind, Next, Advances, Redelivery.Unwelcome;
    var before, steps := RunToSent(true);
    CoreSound(before, steps);
    var settled := ApplyReceipt(Sent(true), 3, FREE).db;
    var first, once := Goes(before, steps, Runs.DeliverReceipt(3, FREE), settled);
    var bound := Bind(settled, "r", "t").db;
    var second, late := Goes(first, once, Runs.BindTask("r", "t"), bound);
    CoreSound(second, late);
    BindAdvances(settled, "r", "t");
    SettledFree();
    NowUnwelcome();
    Redelivery.RedeliveryIff(Sent(true), 3, FREE, bound, 3);
    books, actions := Goes(second, late, Runs.DeliverReceipt(3, FREE), ApplyReceipt(bound, 3, FREE).db);
    ThreeOn(before, settled, bound, ApplyReceipt(bound, 3, FREE).db, books);
  }
}
