/**
  Admission under races. Whatever the order in which the received requests of one Key ask for admission,
  those that pass the concurrency gate are the first ones by creation time and id, as many as the limit.
 */
module Admission {
  import opened Sets
  import opened Wrappers
  import opened Model
  import opened Billing
  import opened Ledger
  import opened AdmissionPreservation
  import opened Tables
  import opened Text

  // The order of requests

  /** Creation time first, then id: the order in which received requests count against each other. */
  predicate Before(requests: map<Id, Request>, x: Id, y: Id)
    requires x in requests && y in requests
  {
    || requests[x].createdAt < requests[y].createdAt
    || (requests[x].createdAt == requests[y].createdAt && Less(x, y))
  }

  predicate Known(requests: map<Id, Request>, ids: set<Id>) {
    forall q | q in ids :: q in requests
  }

  function Preceding(requests: map<Id, Request>, ids: set<Id>, q: Id): set<Id>
    requires Known(requests, ids) && q in requests
  {
    set x | x in ids && Before(requests, x, q)
  }

  /** How many of the requests come before q. */
  function Rank(requests: map<Id, Request>, ids: set<Id>, q: Id): nat
    requires Known(requests, ids) && q in requests
  {
    |Preceding(requests, ids, q)|
  }

  /** The requests that fewer than `limit` others precede. */
  function First(requests: map<Id, Request>, ids: set<Id>, limit: int): set<Id>
    requires Known(requests, ids)
  {
    set q | q in ids && Rank(requests, ids, q) < limit
  }

  lemma BeforeTotal(requests: map<Id, Request>, x: Id, y: Id)
    requires x in requests && y in requests
    ensures x == y || Before(requests, x, y) || Before(requests, y, x)
  {
    LessTotal(x, y);
  }

  lemma BeforeAsymmetric(requests: map<Id, Request>, x: Id, y: Id)
    requires x in requests && y in requests && Before(requests, x, y)
    ensures x != y && !Before(requests, y, x)
  {
    if Less(x, y) {
      LessAsymmetric(x, y);
    }
  }

  lemma BeforeTransitive(requests: map<Id, Request>, x: Id, y: Id, z: Id)
    requires x in requests && y in requests && z in requests
    requires Before(requests, x, y) && Before(requests, y, z)
    ensures Before(requests, x, z)
  {
    if Less(x, y) && Less(y, z) {
      LessTransitive(x, y, z);
    }
  }

  lemma {:induction false} LastOf(requests: map<Id, Request>, ids: set<Id>) returns (last: Id)
    requires Known(requests, ids) && ids != {}
    ensures last in ids && Preceding(requests, ids, last) == ids - {last}
    decreases |ids|
  {
    last :| last in ids;
    if ids == {last} {
      assert !Before(requests, last, last) by {
        if Before(requests, last, last) {
          BeforeAsymmetric(requests, last, last);
        }
      }
    } else {
      var rest := ids - {last};
      var other := LastOf(requests, rest);
      BeforeTotal(requests, last, other);
      if Before(requests, other, last) {
        BeforeAsymmetric(requests, other, last);
        forall x | x in rest
          ensures Before(requests, x, last)
        {
          if x != other {
            assert x in Preceding(requests, rest, other);
            BeforeTransitive(requests, x, other, last);
          }
        }
        assert !Before(requests, last, last) by {
          if Before(requests, last, last) {
            BeforeAsymmetric(requests, last, last);
          }
        }
      } else {
        forall x | x in ids
          ensures Before(requests, x, other) <==> x != other
        {
          if x != last {
            assert x in Preceding(requests, rest, other) <==> x in rest - {other};
          }
        }
        last := other;
      }
    }
  }

  /** Exactly as many requests as the limit allows, or all of them, are among the first. */
  lemma {:induction false} FirstCount(requests: map<Id, Request>, ids: set<Id>, limit: nat)
    requires Known(requests, ids)
    ensures |First(requests, ids, limit)| == if |ids| < limit then |ids| else limit
    decreases |ids|
  {
    if ids == {} {
      assert First(requests, ids, limit) == {};
    } else {
      var last := LastOf(requests, ids);
      var rest := ids - {last};
      FirstCount(requests, rest, limit);
      forall q | q in rest
        ensures Preceding(requests, ids, q) == Preceding(requests, rest, q)
      {
        assert q in Preceding(requests, ids, last);
        BeforeAsymmetric(requests, q, last);
      }
      var others := First(requests, rest, limit);
      if |rest| < limit {
        assert First(requests, ids, limit) == others + {last};
      } else {
        assert First(requests, ids, limit) == others;
      }
    }
  }

  // The gate

  /**
    `ids` are received requests of the Key, of which those in `admitted` have an operation by now; nothing else of
    the Key is active.
   */
  ghost predicate Contest(db: Db, key: Id, ids: set<Id>, admitted: set<Id>) {
    && admitted <= ids
    && (forall q | q in ids ::
          q in db.requests && db.requests[q].identity.key == key && q !in db.relations
          && (q in db.operations <==> q in admitted))
    && (forall q | q in ids - admitted :: db.requests[q].state == Received)
    && (forall p | p in db.operations ::
          (p in admitted ==> db.operations[p].key == key && !Terminal(db.operations[p].state))
          && (db.operations[p].key == key && !Terminal(db.operations[p].state) ==> p in admitted))
    && (forall q | q in db.requests && db.requests[q].identity.key == key && ActiveRequest(db.requests[q].state)
                   && q !in db.relations && q !in db.operations :: q in ids)
  }

  lemma ContestCounts(db: Db, key: Id, ids: set<Id>, admitted: set<Id>, q: Id)
    requires Contest(db, key, ids, admitted) && q in ids - admitted
    ensures Known(db.requests, ids)
    ensures CountedOperations(db, key, q) == admitted
    ensures CountedRequests(db, key, q) == Preceding(db.requests, ids, q) - admitted
  {
    hide Terminal;
    assert !Before(db.requests, q, q) by {
      if Before(db.requests, q, q) {
        BeforeAsymmetric(db.requests, q, q);
      }
    }
  }

  /** The concurrency gate admits a request exactly when it is among the first, as long as only such were admitted. */
  lemma GateIsRank(db: Db, key: Id, ids: set<Id>, admitted: set<Id>, q: Id, limit: nat)
    requires Contest(db, key, ids, admitted) && q in ids - admitted && Known(db.requests, ids)
    requires admitted <= First(db.requests, ids, limit)
    ensures AdmissionCount(db, key, q) < limit <==> q in First(db.requests, ids, limit)
  {
    hide Contest, CountedOperations, CountedRequests;
    ContestCounts(db, key, ids, admitted, q);
    var before := Preceding(db.requests, ids, q);
    assert |admitted| + |before - admitted| == |before + admitted| by {
      assert before + admitted == (before - admitted) + admitted;
    }
    if q in First(db.requests, ids, limit) {
      forall x | x in before
        ensures x in First(db.requests, ids, limit)
      {
        EarlierRanksLower(db.requests, ids, x, q);
      }
      assert q !in before by {
        if q in before {
          BeforeAsymmetric(db.requests, q, q);
        }
      }
      SubsetSize(before + admitted, First(db.requests, ids, limit) - {q});
      FirstCount(db.requests, ids, limit);
    } else {
      SubsetSize(before, before + admitted);
    }
  }

  lemma EarlierRanksLower(requests: map<Id, Request>, ids: set<Id>, x: Id, q: Id)
    requires Known(requests, ids) && x in requests && q in requests && Before(requests, x, q)
    ensures Rank(requests, ids, x) <= Rank(requests, ids, q)
  {
    forall y | y in Preceding(requests, ids, x)
      ensures y in Preceding(requests, ids, q)
    {
      BeforeTransitive(requests, y, x, q);
    }
    SubsetSize(Preceding(requests, ids, x), Preceding(requests, ids, q));
  }

  // Attempts in any order

  datatype Attempt = Attempt(now: Millis, parent: Id, kind: StepKind, auth: Authorization)

  function Tried(db: Db, attempt: Attempt): Tx<Mutation> {
    Begin(db, attempt.now, attempt.parent, attempt.kind, attempt.auth)
  }

  ghost predicate Attempts(states: seq<Db>, attempts: seq<Attempt>, ids: set<Id>) {
    && |states| == |attempts| + 1
    && forall i | 0 <= i < |attempts| :: attempts[i].parent in ids && states[i + 1] == Tried(states[i], attempts[i]).db
  }

  /** Creation times, which decide the order, are those of the beginning. */
  ghost predicate SameTimes(requests: map<Id, Request>, requests': map<Id, Request>) {
    && requests'.Keys == requests.Keys
    && forall q | q in requests :: requests'[q].createdAt == requests[q].createdAt
  }

  lemma SameTimesSameFirst(requests: map<Id, Request>, requests': map<Id, Request>, ids: set<Id>, limit: int)
    requires Known(requests, ids) && SameTimes(requests, requests')
    ensures Known(requests', ids) && First(requests', ids, limit) == First(requests, ids, limit)
  {
    hide Less;
    forall q | q in ids
      ensures Preceding(requests', ids, q) == Preceding(requests, ids, q)
    {
    }
  }

  lemma TriedEffect(db: Db, attempt: Attempt)
    ensures var tried := Tried(db, attempt);
            if tried.reply == Ok(Applied) then
              && attempt.parent in db.requests && attempt.parent !in db.operations
              && attempt.auth.key == db.requests[attempt.parent].identity.key
              && attempt.auth.key in db.keys
              && AdmissionCount(db, attempt.auth.key, attempt.parent) < db.keys[attempt.auth.key].maxConcurrency
              && tried.db.requests
                 == db.requests[attempt.parent := db.requests[attempt.parent].(state := Reserved)]
              && tried.db.operations == db.operations[attempt.parent := Operation(attempt.auth.key, ExecReady)]
              && tried.db.relations == db.relations && tried.db.keys == db.keys
            else tried.db == db
  {
    hide BeginVerdict, HoldFor, Opened, NewStepRows, CheckPreparation, AdmissionCount, KeyBlockedIn, BudgetIdUsed, Blank,
         MinAvailable;
    if BeginVerdict(db, attempt.now, attempt.parent, attempt.kind, attempt.auth).Proceed? {
      OpenedRequests(db, attempt.parent, attempt.auth.key);
      NewStepShape(Opened(db, attempt.parent, attempt.auth.key), attempt.now, attempt.parent, attempt.kind, attempt.auth,
                   BeginHold(db, attempt.parent, attempt.auth).value);
    }
  }

  lemma OpenedRequests(db: Db, parent: Id, key: Id)
    requires parent in db.requests
    ensures var db' := Opened(db, parent, key);
            && db'.requests == db.requests[parent := db.requests[parent].(state := Reserved)]
            && db'.operations == db.operations[parent := Operation(key, ExecReady)]
            && db'.relations == db.relations && db'.keys == db.keys
  {
  }

  lemma TriedKeepsContest(db: Db, attempt: Attempt, key: Id, ids: set<Id>, admitted: set<Id>) returns (admitted': set<Id>)
    requires Contest(db, key, ids, admitted) && attempt.parent in ids && key in db.keys
    requires Known(db.requests, ids) && admitted <= First(db.requests, ids, db.keys[key].maxConcurrency)
    ensures var db' := Tried(db, attempt).db;
            && Contest(db', key, ids, admitted')
            && SameTimes(db.requests, db'.requests) && db'.keys == db.keys
            && admitted' <= First(db.requests, ids, db.keys[key].maxConcurrency)
  {
    hide Tried, AdmissionCount, First;
    TriedEffect(db, attempt);
    admitted' := admitted;
    if Tried(db, attempt).reply == Ok(Applied) {
      admitted' := admitted + {attempt.parent};
      assert AdmissionCount(db, key, attempt.parent) >= 0 by { CountsNonNegative(db, key, attempt.parent); }
      GateIsRank(db, key, ids, admitted, attempt.parent, db.keys[key].maxConcurrency);
    }
  }

  lemma CountsNonNegative(db: Db, key: Id, q: Id)
    requires q in db.requests
    ensures AdmissionCount(db, key, q) >= 0
  {
    hide CountedOperations, CountedRequests;
  }

  lemma {:induction false} ContestHolds(states: seq<Db>, attempts: seq<Attempt>, key: Id, ids: set<Id>, i: nat)
    returns (admitted: set<Id>)
    requires Attempts(states, attempts, ids) && i < |states|
    requires Contest(states[0], key, ids, {}) && key in states[0].keys
    ensures Contest(states[i], key, ids, admitted)
    ensures SameTimes(states[0].requests, states[i].requests) && states[i].keys == states[0].keys
    ensures Known(states[0].requests, ids)
    ensures admitted <= First(states[0].requests, ids, states[0].keys[key].maxConcurrency)
  {
    if i == 0 {
      admitted := {};
    } else {
      admitted := ContestHolds(states, attempts, key, ids, i - 1);
      hide Contest, First, Tried;
      SameTimesSameFirst(states[0].requests, states[i - 1].requests, ids, states[0].keys[key].maxConcurrency);
      admitted := TriedKeepsContest(states[i - 1], attempts[i - 1], key, ids, admitted);
    }
  }

  /**
    However many attempts have been made and in whatever order: a request that has no operation yet would pass the
    concurrency gate now exactly when it is one of the first `maxConcurrency` by creation time and id.
   */
  lemma AdmissionIsDeterministic(states: seq<Db>, attempts: seq<Attempt>, key: Id, ids: set<Id>, i: nat, q: Id)
    requires Attempts(states, attempts, ids) && i < |states|
    requires Contest(states[0], key, ids, {}) && key in states[0].keys && states[0].keys[key].maxConcurrency >= 0
    requires q in ids && q !in states[i].operations
    ensures Known(states[0].requests, ids) && q in states[i].requests && key in states[i].keys
    ensures AdmissionCount(states[i], key, q) < states[i].keys[key].maxConcurrency
            <==> q in First(states[0].requests, ids, states[0].keys[key].maxConcurrency)
    ensures |First(states[0].requests, ids, states[0].keys[key].maxConcurrency)|
            == if |ids| < states[0].keys[key].maxConcurrency then |ids| else states[0].keys[key].maxConcurrency
  {
    hide Attempts, AdmissionCount, First;
    var limit := states[0].keys[key].maxConcurrency;
    var admitted := ContestHolds(states, attempts, key, ids, i);
    SameTimesSameFirst(states[0].requests, states[i].requests, ids, limit);
    GateIsRank(states[i], key, ids, admitted, q, limit);
    FirstCount(states[0].requests, ids, limit);
  }
}
