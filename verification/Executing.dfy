/**
  What a step's execution may report, when an operation ends, and when a video is given its task: read off the tables,
  with the states a request may be in spelled out.
 */
module Executing {
  import opened Wrappers
  import opened Model
  import opened RequestStates
  import opened Billing
  import opened Text

  /** The request state that says what the execution says. */
  predicate Says(state: RequestState, terminal: ExecState) {
    || (state == Succeeded && terminal == ExecSucceeded)
    || (state == Failed && terminal == ExecFailed)
    || (state == Canceled && terminal == ExecCanceled)
  }

  /** An open request can end as its operation does, but not succeed once it was asked to cancel. */
  predicate ParentMayEnd(state: RequestState, terminal: ExecState) {
    || Says(state, terminal)
    || state in {Received, Validating, Reserved, Queued, Dispatched, Completing, UnknownOutcome}
    || (state == CancelRequested && terminal != ExecSucceeded)
  }

  /** An open assist request can be canceled; it can fail unless asked to cancel, and succeed once it was dispatched. */
  predicate AssistMayEnd(state: RequestState, terminal: ExecState) {
    || Says(state, terminal)
    || state in {Dispatched, Completing, UnknownOutcome}
    || (state in {Received, Validating, Reserved, Queued} && terminal != ExecSucceeded)
    || (state == CancelRequested && terminal == ExecCanceled)
  }

  lemma ParentEnds(state: RequestState, terminal: ExecState)
    requires Terminal(terminal)
    ensures FinishParent(state, terminal).Ok? <==> ParentMayEnd(state, terminal)
    ensures FinishParent(state, terminal).Ok? ==> Says(FinishParent(state, terminal).value, terminal)
  {
  }

  lemma AssistEnds(state: RequestState, terminal: ExecState)
    requires Terminal(terminal)
    ensures SyncAssist(state, terminal).Ok? <==> AssistMayEnd(state, terminal)
    ensures SyncAssist(state, terminal).Ok? ==> Says(SyncAssist(state, terminal).value, terminal)
  {
  }

  // Marking a step's execution

  /** An undispatched step can only fail or be canceled; a dispatched one can report anything until it has ended. */
  predicate MayMark(db: Db, r: Id, next: ExecState) {
    && r in db.steps && next != ExecReady && db.steps[r].exec != next
    && var step := db.steps[r];
       && (if step.dispatched then step.exec in {ExecRunning, ExecUnknown}
           else step.exec == ExecReady && next in {ExecFailed, ExecCanceled})
       && (step.kind == Video && next == ExecSucceeded ==> step.task.Some? && step.task.value != "")
       && (step.kind == Assist && next in {ExecSucceeded, ExecFailed, ExecCanceled} ==>
             r in db.requests && AssistMayEnd(db.requests[r].state, next))
       && step.operation in db.operations && db.operations[step.operation].state in {ExecReady, ExecRunning, ExecUnknown}
  }

  /** The step says what was reported, its operation is running or in doubt, and the request of an assist ends with it. */
  predicate Marked(db: Db, db': Db, r: Id, next: ExecState)
    requires r in db.steps && db.steps[r].operation in db.operations
  {
    var step, operation := db.steps[r], db.steps[r].operation;
    && db' == db.(steps := db.steps[r := step.(exec := next)],
                  operations := db.operations[operation := Operation(db.operations[operation].key,
                                                                     if next == ExecUnknown then ExecUnknown else ExecRunning)],
                  requests := db'.requests)
    && if step.kind == Assist && next in {ExecSucceeded, ExecFailed, ExecCanceled}
       then
         && r in db.requests && r in db'.requests && Says(db'.requests[r].state, next)
         && db'.requests == db.requests[r := db.requests[r].(state := db'.requests[r].state)]
       else db'.requests == db.requests
  }

  lemma MarkAnswers(db: Db, r: Id, next: ExecState)
    ensures var tx := MarkExecution(db, r, next);
            && (tx.reply == Ok(Applied) <==> MayMark(db, r, next))
            && (tx.reply == Ok(Duplicate) <==> r in db.steps && next != ExecReady && db.steps[r].exec == next)
            && (tx.reply != Ok(Applied) ==> tx.db == db)
            && (tx.reply == Ok(Applied) ==> Marked(db, tx.db, r, next))
  {
    hide SyncAssist, AssistMayEnd;
    if r in db.requests && Terminal(next) {
      AssistEnds(db.requests[r].state, next);
    }
  }

  // Finishing an operation

  /** An open operation ends when every step it has has ended, and its request can end so. */
  ghost predicate MayFinish(db: Db, parent: Id, terminal: ExecState) {
    && terminal in {ExecSucceeded, ExecFailed, ExecCanceled}
    && parent in db.operations && db.operations[parent].state in {ExecReady, ExecRunning, ExecUnknown}
    && (exists s :: s in db.steps && db.steps[s].operation == parent)
    && (forall s | s in db.steps && db.steps[s].operation == parent ::
          db.steps[s].exec in {ExecSucceeded, ExecFailed, ExecCanceled})
    && parent in db.requests && ParentMayEnd(db.requests[parent].state, terminal)
  }

  lemma FinishAnswers(db: Db, parent: Id, terminal: ExecState)
    ensures var tx := Finish(db, parent, terminal);
            && (tx.reply == Ok(Applied) <==> MayFinish(db, parent, terminal))
            && (tx.reply == Ok(Duplicate) <==>
                  && terminal in {ExecSucceeded, ExecFailed, ExecCanceled}
                  && parent in db.operations && db.operations[parent].state == terminal)
            && (tx.reply != Ok(Applied) ==> tx.db == db)
            && (tx.reply == Ok(Applied) ==>
                  && parent in tx.db.requests && Says(tx.db.requests[parent].state, terminal)
                  && tx.db == db.(operations := db.operations[parent := Operation(db.operations[parent].key, terminal)],
                                  requests := db.requests[parent := db.requests[parent].(state := tx.db.requests[parent].state)]))
  {
    hide FinishParent, ParentMayEnd;
    if parent in db.requests && Terminal(terminal) {
      ParentEnds(db.requests[parent].state, terminal);
    }
  }

  // Binding a video's task

  /** A dispatched video that has not failed is given its one task, whether or not it was settled. */
  lemma BindAnswers(db: Db, r: Id, task: Id)
    ensures var tx := Bind(db, r, task);
            && (tx.reply == Ok(Applied) <==>
                  && !Blank(task) && r in db.steps && db.steps[r].kind == Video && db.steps[r].dispatched
                  && db.steps[r].task.None? && db.steps[r].exec !in {ExecFailed, ExecCanceled})
            && (tx.reply == Ok(Duplicate) <==>
                  && !Blank(task) && r in db.steps && db.steps[r].kind == Video && db.steps[r].dispatched
                  && db.steps[r].task == Some(task))
            && (tx.reply != Ok(Applied) ==> tx.db == db)
            && (tx.reply == Ok(Applied) ==> tx.db == db.(steps := db.steps[r := db.steps[r].(task := Some(task))]))
  {
    hide Blank;
  }
}
