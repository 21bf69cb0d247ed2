/**
  Headerless video retries. A client that repeats a video request without an idempotency key is given the
  request it already made, as long as that one is still being worked on or is recent.
 */
module ImplicitRetry {
  import opened Wrappers
  import opened Model

  const RETRY_WINDOW: int := 2 * 60 * 1000
  const IMPLICIT_PREFIX := "core-implicit:"

  datatype Intent = Intent(user: Id, key: Id, endpoint: Id, model: Id, body: Id)

  /** The fingerprint covers endpoint, model and body; equal fingerprints mean equal contents. */
  datatype RequestHash = RequestHash(endpoint: Id, model: Id, body: Id)

  /** An operation's execution; rows from before the finish time was recorded have none. */
  datatype Execution = Unfinished | Finished(at: Option<int>)

  /** A request with its idempotency row, its budget operation and its legacy evidence. */
  datatype Row = Row(
    intent: Intent,
    clientKey: string,
    createdAt: int,
    state: RequestState,
    operation: Option<Execution>,
    evidence: Option<int>)

  datatype Reply = Created(id: nat) | Existing(id: nat) | Conflict

  datatype BeginTx = BeginTx(rows: seq<Row>, reply: Result<Reply, Error>)

  function ScopeOf(intent: Intent): string {
    intent.user + ":" + intent.key + ":" + intent.endpoint
  }

  function HashOf(intent: Intent): RequestHash {
    RequestHash(intent.endpoint, intent.model, intent.body)
  }

  function Lower(s: string): string {
    seq(|s|, i requires 0 <= i < |s| => if 'A' <= s[i] <= 'Z' then s[i] - 'A' + 'a' else s[i])
  }

  /** LIKE 'core-implicit:%', which ignores the case of ASCII letters. */
  predicate ImplicitKey(clientKey: string) {
    |clientKey| >= |IMPLICIT_PREFIX| && Lower(clientKey[..|IMPLICIT_PREFIX|]) == IMPLICIT_PREFIX
  }

  // The lookup

  predicate SameIntent(row: Row, intent: Intent) {
    ScopeOf(row.intent) == ScopeOf(intent) && HashOf(row.intent) == HashOf(intent) && row.intent.model == intent.model
  }

  predicate InFlight(state: RequestState) {
    state.Reserved? || state.Queued? || state.Dispatched? || state.Completing? || state.UnknownOutcome?
  }

  predicate Reusable(row: Row, cutoff: int) {
    || (row.operation.Some?
        && (match row.operation.value
            case Unfinished => true
            case Finished(at) => (if at.None? then row.createdAt else at.value) >= cutoff))
    || (row.evidence.Some? && row.evidence.value >= cutoff)
    || (row.operation.None? && row.evidence.None? && (row.createdAt >= cutoff || InFlight(row.state)))
  }

  /** `saturating_sub` */
  function Cutoff(now: int): int {
    if now - RETRY_WINDOW < MIN_I64 then MIN_I64 else now - RETRY_WINDOW
  }

  predicate Found(row: Row, intent: Intent, cutoff: int) {
    ImplicitKey(row.clientKey) && SameIntent(row, intent) && Reusable(row, cutoff)
  }

  /** ORDER BY created_at_ms DESC LIMIT 1 */
  function Previous(rows: seq<Row>, intent: Intent, cutoff: int): (r: Option<nat>)
    ensures r.Some? ==> r.value < |rows| && Found(rows[r.value], intent, cutoff)
    ensures r.Some? ==> forall i | 0 <= i < |rows| && Found(rows[i], intent, cutoff) ::
                          rows[i].createdAt <= rows[r.value].createdAt
    ensures r.None? ==> forall i | 0 <= i < |rows| :: !Found(rows[i], intent, cutoff)
  {
    if rows == [] then None
    else
      var last := |rows| - 1;
      var best := Previous(rows[..last], intent, cutoff);
      assert forall i | 0 <= i < last :: rows[..last][i] == rows[i];
      if Found(rows[last], intent, cutoff) && (best.None? || rows[best.value].createdAt <= rows[last].createdAt)
      then Some(last) else best
  }

  /** The idempotency row of a scope and client key. */
  function Keyed(rows: seq<Row>, scope: string, clientKey: string): (r: Option<nat>)
    ensures r.Some? ==> r.value < |rows| && ScopeOf(rows[r.value].intent) == scope
                        && rows[r.value].clientKey == clientKey
    ensures r.None? ==> forall i | 0 <= i < |rows| ::
                          !(ScopeOf(rows[i].intent) == scope && rows[i].clientKey == clientKey)
  {
    if rows == [] then None
    else
      var last := |rows| - 1;
      if ScopeOf(rows[last].intent) == scope && rows[last].clientKey == clientKey then Some(last)
      else
        var r := Keyed(rows[..last], scope, clientKey);
        assert forall i | 0 <= i < last :: rows[..last][i] == rows[i];
        r
  }

  // The two ways to begin a request

  function BeginAt(
    rows: seq<Row>, now: int, intent: Intent, clientKey: string, keyActive: bool, coalesce: bool): BeginTx
  {
    if !keyActive then BeginTx(rows, Err(InvalidIdentity))
    else
      var previous := if coalesce then Previous(rows, intent, Cutoff(now)) else None;
      if previous.Some? then BeginTx(rows, Ok(Existing(previous.value)))
      else
        var keyed := Keyed(rows, ScopeOf(intent), clientKey);
        if keyed.Some? then
          BeginTx(rows, Ok(if HashOf(rows[keyed.value].intent) == HashOf(intent) then Existing(keyed.value) else Conflict))
        else
          BeginTx(rows + [Row(intent, clientKey, now, Received, None, None)], Ok(Created(|rows|)))
  }

  function BeginImplicit(rows: seq<Row>, now: int, intent: Intent, nonce: string, keyActive: bool): BeginTx {
    if intent.endpoint != "videos" then BeginTx(rows, Err(InvalidConfiguration))
    else BeginAt(rows, now, intent, IMPLICIT_PREFIX + nonce, keyActive, true)
  }

  function BeginBilled(rows: seq<Row>, now: int, intent: Intent, clientKey: string, keyActive: bool): BeginTx {
    BeginAt(rows, now, intent, clientKey, keyActive, false)
  }

  class RequestStore {
    var rows: seq<Row>

    constructor ()
      ensures rows == []
    {
      rows := [];
    }

    method FindPrevious(intent: Intent, cutoff: int) returns (found: Option<nat>)
      ensures found == Previous(rows, intent, cutoff)
    {
      found := None;
      for i := 0 to |rows|
        invariant found == Previous(rows[..i], intent, cutoff)
      {
        assert rows[..i + 1][..i] == rows[..i];
        if Found(rows[i], intent, cutoff) && (found.None? || rows[found.value].createdAt <= rows[i].createdAt) {
          found := Some(i);
        }
      }
      assert rows[..|rows|] == rows;
    }

    method Begin(now: int, intent: Intent, clientKey: string, keyActive: bool, coalesce: bool)
      returns (reply: Result<Reply, Error>)
      modifies this
      ensures BeginTx(rows, reply) == BeginAt(old(rows), now, intent, clientKey, keyActive, coalesce)
    {
      if !keyActive {
        return Err(InvalidIdentity);
      }
      if coalesce {
        var previous := FindPrevious(intent, Cutoff(now));
        if previous.Some? {
          return Ok(Existing(previous.value));
        }
      }
      var keyed := Keyed(rows, ScopeOf(intent), clientKey);
      if keyed.Some? {
        if HashOf(rows[keyed.value].intent) == HashOf(intent) {
          return Ok(Existing(keyed.value));
        }
        return Ok(Conflict);
      }
      rows := rows + [Row(intent, clientKey, now, Received, None, None)];
      reply := Ok(Created(|rows| - 1));
    }

    method BeginImplicitVideo(now: int, intent: Intent, nonce: string, keyActive: bool)
      returns (reply: Result<Reply, Error>)
      modifies this
      ensures BeginTx(rows, reply) == BeginImplicit(old(rows), now, intent, nonce, keyActive)
    {
      if intent.endpoint != "videos" {
        return Err(InvalidConfiguration);
      }
      reply := Begin(now, intent, IMPLICIT_PREFIX + nonce, keyActive, true);
    }
  }

  // One retry

  predicate StillWorkedOn(row: Row) {
    row.operation == Some(Unfinished) || (row.operation.None? && row.evidence.None? && InFlight(row.state))
  }

  /** An execution does not finish before its request was created. */
  predicate TimesOrdered(row: Row) {
    row.operation.Some? && row.operation.value.Finished? && row.operation.value.at.Some? ==>
      row.createdAt <= row.operation.value.at.value
  }

  predicate OnlyStaleEvidence(row: Row, cutoff: int) {
    row.operation.None? && row.evidence.Some? && row.evidence.value < cutoff
  }

  /** Within the window a row escapes the lookup exactly when all that speaks for it is evidence gone stale. */
  lemma ReusableWithinWindowIff(row: Row, now: int)
    requires TimesOrdered(row) && row.createdAt >= MIN_I64 && now - row.createdAt <= RETRY_WINDOW
    ensures Reusable(row, Cutoff(now)) <==> !OnlyStaleEvidence(row, Cutoff(now))
  {
  }

  /** While a request is worked on, a retry never creates another; it is answered with it or a later one. */
  lemma ActiveIsReused(rows: seq<Row>, now: int, intent: Intent, nonce: string, i: nat)
    requires i < |rows| && ImplicitKey(rows[i].clientKey) && SameIntent(rows[i], intent) && StillWorkedOn(rows[i])
    requires intent.endpoint == "videos"
    ensures var tx := BeginImplicit(rows, now, intent, nonce, true);
            && tx.rows == rows
            && tx.reply.Ok? && tx.reply.value.Existing?
            && tx.reply.value.id < |rows|
            && SameIntent(rows[tx.reply.value.id], intent)
            && rows[i].createdAt <= rows[tx.reply.value.id].createdAt
  {
    hide ImplicitKey, SameIntent;
    assert Found(rows[i], intent, Cutoff(now));
  }

  /** A created retry is more than the window younger than every earlier one that has no stale evidence. */
  lemma CreatedFarApart(rows: seq<Row>, now: int, intent: Intent, nonce: string, keyActive: bool, i: nat)
    requires BeginImplicit(rows, now, intent, nonce, keyActive).reply == Ok(Created(|rows|))
    requires i < |rows| && ImplicitKey(rows[i].clientKey) && SameIntent(rows[i], intent)
    requires TimesOrdered(rows[i]) && rows[i].createdAt >= MIN_I64
    ensures !StillWorkedOn(rows[i])
    ensures now - rows[i].createdAt > RETRY_WINDOW || OnlyStaleEvidence(rows[i], Cutoff(now))
  {
    hide ImplicitKey, SameIntent;
    assert !Found(rows[i], intent, Cutoff(now));
    if now - rows[i].createdAt <= RETRY_WINDOW {
      ReusableWithinWindowIff(rows[i], now);
    }
  }

  /** A client key is a promise: the same content is answered with the same request, any other is refused. */
  lemma ClientKeyIsKept(rows: seq<Row>, now: int, intent: Intent, clientKey: string, later: int, other: Intent)
    requires BeginBilled(rows, now, intent, clientKey, true).reply == Ok(Created(|rows|))
    requires ScopeOf(other) == ScopeOf(intent)
    ensures var rows' := BeginBilled(rows, now, intent, clientKey, true).rows;
            BeginBilled(rows', later, other, clientKey, true)
            == BeginTx(rows', Ok(if HashOf(other) == HashOf(intent) then Existing(|rows|) else Conflict))
  {
  }

  // The answer to a retry, read off the rows

  /** The client key begins with the reserved prefix, in whatever case its letters are. */
  predicate Reserved(clientKey: string) {
    && |clientKey| >= 14
    && forall i | 0 <= i < 14 ::
         clientKey[i] == "core-implicit:"[i]
         || ('A' <= clientKey[i] <= 'Z' && clientKey[i] as int + 32 == "core-implicit:"[i] as int)
  }

  /** What keeps a request in use: an open or recent execution, recent evidence, or itself, recent or on its way. */
  predicate InUseSince(row: Row, cutoff: int) {
    match row.operation
    case Some(Unfinished) => true
    case Some(Finished(Some(at))) => at >= cutoff || (row.evidence.Some? && row.evidence.value >= cutoff)
    case Some(Finished(None)) => row.createdAt >= cutoff || (row.evidence.Some? && row.evidence.value >= cutoff)
    case None =>
      if row.evidence.Some? then row.evidence.value >= cutoff
      else
        row.createdAt >= cutoff
        || row.state in {RequestState.Reserved, Queued, Dispatched, Completing, UnknownOutcome}
  }

  /** The row is an earlier retry of this intent, in use within the last two minutes. */
  predicate Coalesces(row: Row, now: int, intent: Intent) {
    && Reserved(row.clientKey)
    && row.intent.user + ":" + row.intent.key + ":" + row.intent.endpoint
       == intent.user + ":" + intent.key + ":" + intent.endpoint
    && row.intent.endpoint == intent.endpoint && row.intent.model == intent.model && row.intent.body == intent.body
    && InUseSince(row, if now - 120_000 < MIN_I64 then MIN_I64 else now - 120_000)
  }

  lemma ReservedIff(clientKey: string)
    ensures ImplicitKey(clientKey) <==> Reserved(clientKey)
  {
    if |clientKey| >= 14 {
      var lowered := Lower(clientKey[..14]);
      forall i | 0 <= i < 14
        ensures lowered[i] == IMPLICIT_PREFIX[i]
                <==> clientKey[i] == "core-implicit:"[i]
                     || ('A' <= clientKey[i] <= 'Z' && clientKey[i] as int + 32 == "core-implicit:"[i] as int)
      {
      }
      if Reserved(clientKey) {
        assert lowered == IMPLICIT_PREFIX;
      }
    }
  }

  lemma CoalescesIff(row: Row, now: int, intent: Intent)
    ensures Found(row, intent, Cutoff(now)) <==> Coalesces(row, now, intent)
  {
    hide ImplicitKey, Reserved, Lower;
    ReservedIff(row.clientKey);
  }

  /**
    A retry of a video is answered with the latest of the requests it coalesces with, and creates nothing, exactly while
    there is one; else it is a new request under a key of the reserved prefix, unless that very key was used before.
   */
  lemma RetryAnswers(rows: seq<Row>, now: int, intent: Intent, nonce: string, keyActive: bool)
    ensures var tx := BeginImplicit(rows, now, intent, nonce, keyActive);
            var coalesces := exists i :: 0 <= i < |rows| && Coalesces(rows[i], now, intent);
            var used := exists i :: 0 <= i < |rows| && ScopeOf(rows[i].intent) == ScopeOf(intent)
                                    && rows[i].clientKey == "core-implicit:" + nonce;
            && (tx.reply.Err? <==> intent.endpoint != "videos" || !keyActive)
            && (tx.reply == Ok(Created(|rows|)) <==> tx.reply.Ok? && !coalesces && !used)
            && (tx.reply == Ok(Created(|rows|)) ==>
                  tx.rows == rows + [Row(intent, "core-implicit:" + nonce, now, Received, None, None)])
            && (tx.reply != Ok(Created(|rows|)) ==> tx.rows == rows)
            && (tx.reply.Ok? && coalesces ==>
                  && tx.reply.value.Existing? && tx.reply.value.id < |rows|
                  && Coalesces(rows[tx.reply.value.id], now, intent)
                  && forall i | 0 <= i < |rows| && Coalesces(rows[i], now, intent) ::
                       rows[i].createdAt <= rows[tx.reply.value.id].createdAt)
  {
    hide Found, Coalesces;
    forall i | 0 <= i < |rows|
      ensures Found(rows[i], intent, Cutoff(now)) <==> Coalesces(rows[i], now, intent)
    {
      CoalescesIff(rows[i], now, intent);
    }
  }

  // Runs

  datatype Step =
    | Retry(now: int, intent: Intent, nonce: string, keyActive: bool)
    | Bill(now: int, intent: Intent, clientKey: string, keyActive: bool)
    | OpenOperation(id: nat)
    | FinishOperation(id: nat, now: int)
    | MoveRequest(id: nat, state: RequestState)
    | RecordEvidence(id: nat, observedAt: int, now: int)

  datatype World = World(rows: seq<Row>, clock: int)

  /**
    The clock never runs backwards; an operation is opened once, finished once, and never removed. Evidence is
    recorded once, for a video without an operation, with the observation time its reporter gives.
   */
  predicate Moves(w: World, step: Step, w': World) {
    match step
    case Retry(now, intent, nonce, keyActive) =>
      && w.clock <= now == w'.clock
      && w'.rows == BeginImplicit(w.rows, now, intent, nonce, keyActive).rows
    case Bill(now, intent, clientKey, keyActive) =>
      && w.clock <= now == w'.clock
      && w'.rows == BeginBilled(w.rows, now, intent, clientKey, keyActive).rows
    case OpenOperation(id) =>
      && id < |w.rows| && w.rows[id].operation.None?
      && w' == w.(rows := w.rows[id := w.rows[id].(operation := Some(Unfinished))])
    case FinishOperation(id, now) =>
      && id < |w.rows| && w.rows[id].operation == Some(Unfinished)
      && w.clock <= now
      && w' == World(w.rows[id := w.rows[id].(operation := Some(Finished(Some(now))))], now)
    case MoveRequest(id, state) =>
      && id < |w.rows|
      && w' == w.(rows := w.rows[id := w.rows[id].(state := state)])
    case RecordEvidence(id, observedAt, now) =>
      && id < |w.rows| && w.rows[id].intent.endpoint == "videos"
      && w.rows[id].operation.None? && w.rows[id].evidence.None?
      && w.clock <= now && 0 < observedAt <= now
      && w' == World(w.rows[id := w.rows[id].(evidence := Some(observedAt))], now)
  }

  /** Callers that bring their own key do not use the reserved prefix. */
  predicate OwnKeyOnly(step: Step) {
    step.Bill? ==> !ImplicitKey(step.clientKey)
  }

  /** Evidence is not about a time before its request existed; the store itself does not check this. */
  predicate NotBackdated(w: World, step: Step) {
    step.RecordEvidence? && step.id < |w.rows| ==> w.rows[step.id].createdAt <= step.observedAt
  }

  predicate EvidenceOrdered(row: Row) {
    row.evidence.Some? ==> row.createdAt <= row.evidence.value
  }

  predicate Timely(w: World) {
    && MIN_I64 <= w.clock
    && forall i | 0 <= i < |w.rows| ::
         MIN_I64 <= w.rows[i].createdAt <= w.clock && TimesOrdered(w.rows[i]) && EvidenceOrdered(w.rows[i])
  }

  predicate Apart(a: Row, b: Row) {
    ImplicitKey(a.clientKey) && ImplicitKey(b.clientKey) && SameIntent(a, b.intent) ==>
      b.createdAt - a.createdAt > RETRY_WINDOW
  }

  predicate AllApart(rows: seq<Row>) {
    forall i, j | 0 <= i < j < |rows| :: Apart(rows[i], rows[j])
  }

  predicate KeysUnique(rows: seq<Row>) {
    forall i, j | 0 <= i < j < |rows| ::
      !(ScopeOf(rows[i].intent) == ScopeOf(rows[j].intent) && rows[i].clientKey == rows[j].clientKey)
  }

  predicate Coalesced(w: World) {
    Timely(w) && AllApart(w.rows) && KeysUnique(w.rows)
  }

  lemma CreationKeeps(w: World, now: int, row: Row, w': World)
    requires Coalesced(w) && w.clock <= now && w' == World(w.rows + [row], now)
    requires row.createdAt == now && row.operation.None? && row.evidence.None?
    requires forall i | 0 <= i < |w.rows| ::
               !(ScopeOf(w.rows[i].intent) == ScopeOf(row.intent) && w.rows[i].clientKey == row.clientKey)
    requires forall i | 0 <= i < |w.rows| :: Apart(w.rows[i], row)
    ensures Coalesced(w')
  {
    hide Apart, ScopeOf;
  }

  lemma UpdateKeeps(w: World, id: nat, row: Row, clock: int)
    requires Coalesced(w) && id < |w.rows| && w.clock <= clock
    requires row == w.rows[id].(operation := row.operation, state := row.state, evidence := row.evidence)
    requires TimesOrdered(row) && EvidenceOrdered(row)
    ensures Coalesced(World(w.rows[id := row], clock))
  {
    hide ScopeOf, ImplicitKey;
  }

  lemma RetryKeeps(w: World, now: int, intent: Intent, nonce: string, keyActive: bool)
    requires Coalesced(w) && w.clock <= now
    ensures Coalesced(World(BeginImplicit(w.rows, now, intent, nonce, keyActive).rows, now))
  {
    hide SameIntent, ImplicitKey, ScopeOf, HashOf;
    var tx := BeginImplicit(w.rows, now, intent, nonce, keyActive);
    if tx.rows != w.rows {
      var row := Row(intent, IMPLICIT_PREFIX + nonce, now, Received, None, None);
      forall i | 0 <= i < |w.rows|
        ensures Apart(w.rows[i], row)
      {
        if ImplicitKey(w.rows[i].clientKey) && SameIntent(w.rows[i], intent) {
          CreatedFarApart(w.rows, now, intent, nonce, keyActive, i);
        }
      }
      CreationKeeps(w, now, row, World(tx.rows, now));
    }
  }

  lemma BillKeeps(w: World, now: int, intent: Intent, clientKey: string, keyActive: bool)
    requires Coalesced(w) && w.clock <= now && !ImplicitKey(clientKey)
    ensures Coalesced(World(BeginBilled(w.rows, now, intent, clientKey, keyActive).rows, now))
  {
    hide SameIntent, ImplicitKey, ScopeOf, HashOf;
    var tx := BeginBilled(w.rows, now, intent, clientKey, keyActive);
    if tx.rows != w.rows {
      CreationKeeps(w, now, Row(intent, clientKey, now, Received, None, None), World(tx.rows, now));
    }
  }

  lemma MovesKeep(w: World, step: Step, w': World)
    requires Coalesced(w) && Moves(w, step, w') && OwnKeyOnly(step) && NotBackdated(w, step)
    ensures Coalesced(w')
  {
    hide Coalesced, ImplicitKey, BeginImplicit, BeginBilled;
    match step
    case Retry(now, intent, nonce, keyActive) => RetryKeeps(w, now, intent, nonce, keyActive);
    case Bill(now, intent, clientKey, keyActive) => BillKeeps(w, now, intent, clientKey, keyActive);
    case OpenOperation(id) =>
      CreatedBefore(w, id);
      UpdateKeeps(w, id, w'.rows[id], w.clock);
    case FinishOperation(id, now) =>
      CreatedBefore(w, id);
      UpdateKeeps(w, id, w'.rows[id], now);
    case MoveRequest(id, state) =>
      CreatedBefore(w, id);
      UpdateKeeps(w, id, w'.rows[id], w.clock);
    case RecordEvidence(id, _, now) =>
      CreatedBefore(w, id);
      UpdateKeeps(w, id, w'.rows[id], now);
  }

  lemma CreatedBefore(w: World, id: nat)
    requires Coalesced(w) && id < |w.rows|
    ensures w.rows[id].createdAt <= w.clock && TimesOrdered(w.rows[id]) && EvidenceOrdered(w.rows[id])
  {
  }

  /**
    In every run, two implicit requests of one user, Key, endpoint, model and body were created more than two
    minutes apart, and no client key names two requests of one scope.
   */
  lemma {:induction false} RetriesCoalesce(worlds: seq<World>, steps: seq<Step>, k: nat)
    requires |worlds| == |steps| + 1 && k < |worlds|
    requires Coalesced(worlds[0])
    requires forall i | 0 <= i < |steps| ::
               Moves(worlds[i], steps[i], worlds[i + 1]) && OwnKeyOnly(steps[i]) && NotBackdated(worlds[i], steps[i])
    ensures Coalesced(worlds[k])
  {
    hide Coalesced, Moves, OwnKeyOnly, NotBackdated;
    if k > 0 {
      RetriesCoalesce(worlds, steps, k - 1);
      MovesKeep(worlds[k - 1], steps[k - 1], worlds[k]);
    }
  }

  // Backdated evidence breaks the window

  /** A request made a minute ago whose evidence was observed five minutes ago does not stop a second one. */
  lemma StaleEvidenceForgets()
    ensures var intent := Intent("u", "k", "videos", "m", "b");
            var first := Row(intent, "core-implicit:1", 600_000, UnknownOutcome, None, Some(360_000));
            BeginImplicit([first], 660_000, intent, "2", true).reply == Ok(Created(1))
  {
    var intent := Intent("u", "k", "videos", "m", "b");
    var first := Row(intent, "core-implicit:1", 600_000, UnknownOutcome, None, Some(360_000));
    assert !Reusable(first, Cutoff(660_000));
    assert [first][..0] == [];
    assert "core-implicit:1"[|IMPLICIT_PREFIX|] == '1';
    assert (IMPLICIT_PREFIX + "2")[|IMPLICIT_PREFIX|] == '2';
  }
}
