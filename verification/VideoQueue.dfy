/**
  The video dispatch queue. A durable cursor remembers whose job was claimed last; the next claim looks beyond
  the cursor first and starts over when nobody is left there. No job waits longer than its place times the
  number of users.
 */
module VideoQueue {
  import opened Sets
  import opened Wrappers
  import opened Text

  type Id = string

  /** A queued video job of an active user whose request is queued too. */
  datatype Job = Job(id: Id, user: Id, createdAt: int)

  // Choosing

  predicate After(user: Id, cursor: Option<Id>) {
    cursor.None? || Less(cursor.value, user)
  }

  /** ORDER BY earliest_created_at_ms, user_id */
  predicate UserFirst(a: Job, b: Job) {
    a.createdAt < b.createdAt || (a.createdAt == b.createdAt && Less(a.user, b.user))
  }

  /** next_video_queue_user: beyond the cursor, the user with the earliest queued job, smaller ids first. */
  function NextUser(jobs: seq<Job>, cursor: Option<Id>): (r: Option<Job>)
    ensures r.Some? ==> r.value in jobs && After(r.value.user, cursor)
    ensures r.None? ==> forall j | j in jobs :: !After(j.user, cursor)
  {
    if jobs == [] then None
    else
      var last := jobs[|jobs| - 1];
      var best := NextUser(jobs[..|jobs| - 1], cursor);
      if !After(last.user, cursor) then best
      else if best.None? || UserFirst(last, best.value) then Some(last)
      else best
  }

  /** ORDER BY created_at_ms, id among the user's jobs */
  predicate JobFirst(a: Job, b: Job) {
    a.createdAt < b.createdAt || (a.createdAt == b.createdAt && Less(a.id, b.id))
  }

  function FirstJob(jobs: seq<Job>, user: Id): (r: Option<Job>)
    ensures r.Some? ==> r.value in jobs && r.value.user == user
    ensures r.None? ==> forall j | j in jobs :: j.user != user
  {
    if jobs == [] then None
    else
      var last := jobs[|jobs| - 1];
      var best := FirstJob(jobs[..|jobs| - 1], user);
      if last.user != user then best
      else if best.None? || JobFirst(last, best.value) then Some(last)
      else best
  }

  /** The user chosen beyond the cursor, or from the start when there is a cursor and nobody beyond it. */
  function Chosen(jobs: seq<Job>, cursor: Option<Id>): Option<Job> {
    var beyond := NextUser(jobs, cursor);
    if beyond.Some? then beyond else if cursor.Some? then NextUser(jobs, None) else None
  }

  function Claimed(jobs: seq<Job>, cursor: Option<Id>): Option<Job> {
    var user := Chosen(jobs, cursor);
    if user.Some? then FirstJob(jobs, user.value.user) else None
  }

  function Without(jobs: seq<Job>, job: Job): seq<Job> {
    if jobs == [] then []
    else if jobs[0] == job then jobs[1..]
    else [jobs[0]] + Without(jobs[1..], job)
  }

  class DispatchQueue {
    var jobs: seq<Job>
    var cursor: Option<Id>

    constructor ()
      ensures jobs == [] && cursor == None
    {
      jobs, cursor := [], None;
    }

    /** claim_next_video_job, where the claimed job finds an upstream account. */
    method ClaimNext() returns (claimed: Option<Job>)
      modifies this
      ensures claimed == Claimed(old(jobs), old(cursor))
      ensures claimed.None? ==> jobs == old(jobs) == [] && cursor == old(cursor)
      ensures claimed.Some? ==> jobs == Without(old(jobs), claimed.value) && cursor == Some(claimed.value.user)
    {
      var user := NextUser(jobs, cursor);
      if user.None? && cursor.Some? {
        user := NextUser(jobs, None);
      }
      if user.None? {
        assert jobs != [] ==> jobs[0] in jobs && After(jobs[0].user, None);
        return None;
      }
      claimed := FirstJob(jobs, user.value.user);
      assert user.value in jobs;
      jobs := Without(jobs, claimed.value);
      cursor := Some(claimed.value.user);
    }
  }

  // The claimed job is the first of those considered

  /** Creation time, then user, then id. */
  predicate Precedes(a: Job, b: Job) {
    || a.createdAt < b.createdAt
    || (a.createdAt == b.createdAt && (Less(a.user, b.user) || (a.user == b.user && Less(a.id, b.id))))
  }

  lemma UserFirstTransitive(a: Job, b: Job, c: Job)
    requires UserFirst(a, b) && (UserFirst(b, c) || (b.createdAt == c.createdAt && b.user == c.user))
    ensures UserFirst(a, c)
  {
    if Less(a.user, b.user) && Less(b.user, c.user) {
      LessTransitive(a.user, b.user, c.user);
    }
  }

  lemma {:induction false} NextUserLeast(jobs: seq<Job>, cursor: Option<Id>, j: Job)
    requires j in jobs && After(j.user, cursor)
    ensures NextUser(jobs, cursor).Some?
    ensures var best := NextUser(jobs, cursor).value;
            UserFirst(best, j) || (best.createdAt == j.createdAt && best.user == j.user)
  {
    var last, front := jobs[|jobs| - 1], jobs[..|jobs| - 1];
    if j in front {
      NextUserLeast(front, cursor, j);
      var best := NextUser(front, cursor).value;
      if After(last.user, cursor) && UserFirst(last, best) {
        UserFirstTransitive(last, best, j);
      }
    } else {
      assert j == last;
      var best := NextUser(front, cursor);
      if best.Some? && !UserFirst(last, best.value) {
        LessTotal(last.user, best.value.user);
      }
    }
  }

  lemma {:induction false} FirstJobLeast(jobs: seq<Job>, user: Id, j: Job)
    requires j in jobs && j.user == user
    ensures FirstJob(jobs, user).Some?
    ensures var best := FirstJob(jobs, user).value;
            JobFirst(best, j) || (best.createdAt == j.createdAt && best.id == j.id)
  {
    var last, front := jobs[|jobs| - 1], jobs[..|jobs| - 1];
    if j in front {
      FirstJobLeast(front, user, j);
      var best := FirstJob(front, user).value;
      if last.user == user && JobFirst(last, best) && Less(last.id, best.id) && Less(best.id, j.id) {
        LessTransitive(last.id, best.id, j.id);
      }
    } else {
      assert j == last;
      var best := FirstJob(front, user);
      if best.Some? && !JobFirst(last, best.value) {
        LessTotal(last.id, best.value.id);
      }
    }
  }

  /** Where the search begins for this claim: beyond the cursor, or anywhere after a wrap. */
  function From(jobs: seq<Job>, cursor: Option<Id>): Option<Id> {
    if NextUser(jobs, cursor).Some? then cursor else None
  }

  lemma ClaimedLeast(jobs: seq<Job>, cursor: Option<Id>, j: Job)
    requires j in jobs && After(j.user, From(jobs, cursor))
    ensures Claimed(jobs, cursor).Some?
    ensures var job := Claimed(jobs, cursor).value;
            job in jobs && After(job.user, From(jobs, cursor)) && (job == j || Precedes(job, j))
  {
    var from := From(jobs, cursor);
    NextUserLeast(jobs, from, j);
    var best := NextUser(jobs, from).value;
    FirstJobLeast(jobs, best.user, best);
    var job := FirstJob(jobs, best.user).value;
    if j.user == best.user {
      FirstJobLeast(jobs, best.user, j);
    } else {
      UserEarliest(jobs, from, best, job);
    }
  }

  /** The first job of the chosen user is as early as the one the user was chosen for. */
  lemma UserEarliest(jobs: seq<Job>, from: Option<Id>, best: Job, job: Job)
    requires NextUser(jobs, from) == Some(best) && FirstJob(jobs, best.user) == Some(job)
    ensures job.createdAt == best.createdAt && job.user == best.user
  {
    FirstJobLeast(jobs, best.user, best);
    NextUserLeast(jobs, from, job);
    if job.createdAt < best.createdAt && Less(best.user, best.user) {
      LessAsymmetric(best.user, best.user);
    }
  }

  /**
    A claim is answered while a job is queued. It takes, of the jobs of users beyond the cursor or, when there are none
    left, of all jobs, one that no other is before: earlier created, or of a smaller user, or of a smaller id.
   */
  lemma ClaimAnswers(jobs: seq<Job>, cursor: Option<Id>)
    ensures Claimed(jobs, cursor).Some? <==> jobs != []
    ensures jobs != [] ==>
              var job := Claimed(jobs, cursor).value;
              var all := cursor.None? || !exists j :: j in jobs && Less(cursor.value, j.user);
              && job in jobs && (all || Less(cursor.value, job.user))
              && forall j | j in jobs && (all || Less(cursor.value, j.user)) ::
                   || job == j
                   || job.createdAt < j.createdAt
                   || (job.createdAt == j.createdAt
                       && (Less(job.user, j.user) || (job.user == j.user && Less(job.id, j.id))))
  {
    hide Less, NextUser, FirstJob, Claimed;
    if jobs == [] {
      ClaimedOfNone(cursor);
    } else {
      var from := From(jobs, cursor);
      FromIs(jobs, cursor);
      forall j | j in jobs && After(j.user, from)
        ensures Claimed(jobs, cursor).Some?
        ensures var job := Claimed(jobs, cursor).value;
                job in jobs && After(job.user, from) && (job == j || Precedes(job, j))
      {
        ClaimedLeast(jobs, cursor, j);
      }
      assert jobs[0] in jobs;
    }
  }

  lemma ClaimedOfNone(cursor: Option<Id>)
    ensures Claimed([], cursor).None?
  {
  }

  /** The search begins at the cursor exactly when a job of a user beyond it is queued. */
  lemma FromIs(jobs: seq<Job>, cursor: Option<Id>)
    ensures From(jobs, cursor)
            == if cursor.Some? && exists j :: j in jobs && Less(cursor.value, j.user) then cursor else None
    ensures jobs != [] ==> exists j :: j in jobs && After(j.user, From(jobs, cursor))
  {
    hide Less;
    if jobs != [] {
      assert jobs[0] in jobs;
      var beyond := NextUser(jobs, cursor);
      if beyond.Some? {
        assert beyond.value in jobs && After(beyond.value.user, cursor);
      }
    }
  }

  // Bounded waiting

  datatype Queue = Queue(jobs: seq<Job>, cursor: Option<Id>)

  datatype Event = Claim | Arrive(job: Job)

  function Next(q: Queue, event: Event): Queue {
    match event
    case Arrive(job) => Queue(q.jobs + [job], q.cursor)
    case Claim =>
      var claimed := Claimed(q.jobs, q.cursor);
      if claimed.None? then q else Queue(Without(q.jobs, claimed.value), Some(claimed.value.user))
  }

  function Run(q: Queue, events: seq<Event>): Queue {
    if events == [] then q else Next(Run(q, events[..|events| - 1]), events[|events| - 1])
  }

  function Claims(events: seq<Event>): nat {
    if events == [] then 0
    else Claims(events[..|events| - 1]) + if events[|events| - 1].Claim? then 1 else 0
  }

  /** A job's place: how many queued jobs are at or before it. */
  function Place(jobs: seq<Job>, target: Job): nat {
    if jobs == [] then 0
    else Place(jobs[1..], target) + if jobs[0] == target || Precedes(jobs[0], target) then 1 else 0
  }

  lemma {:induction false} PlaceAppend(jobs: seq<Job>, job: Job, target: Job)
    ensures Place(jobs + [job], target)
            == Place(jobs, target) + if job == target || Precedes(job, target) then 1 else 0
  {
    if jobs == [] {
      assert jobs + [job] == [job];
    } else {
      assert (jobs + [job])[1..] == jobs[1..] + [job];
      PlaceAppend(jobs[1..], job, target);
    }
  }

  lemma {:induction false} PlaceWithout(jobs: seq<Job>, job: Job, target: Job)
    requires job in jobs
    ensures Place(Without(jobs, job), target)
            == Place(jobs, target) - if job == target || Precedes(job, target) then 1 else 0
  {
    if jobs[0] != job {
      PlaceWithout(jobs[1..], job, target);
      assert Without(jobs, job)[1..] == Without(jobs[1..], job);
    }
  }

  lemma {:induction false} PlacePositive(jobs: seq<Job>, target: Job)
    requires target in jobs
    ensures Place(jobs, target) > 0
  {
    if jobs[0] != target {
      PlacePositive(jobs[1..], target);
    }
  }

  lemma {:induction false} WithoutKeeps(jobs: seq<Job>, job: Job, j: Job)
    ensures j in Without(jobs, job) ==> j in jobs
  {
    if jobs != [] && jobs[0] != job {
      WithoutKeeps(jobs[1..], job, j);
    }
  }

  /** The users whose turn the cursor has not reached yet. */
  function Beyond(users: set<Id>, cursor: Option<Id>): set<Id> {
    if cursor.None? then {} else set u | u in users && Less(cursor.value, u)
  }

  ghost predicate QueueOf(q: Queue, users: set<Id>) {
    && (forall j | j in q.jobs :: j.user in users)
    && (q.cursor.Some? ==> q.cursor.value in users)
  }

  lemma BeyondBound(users: set<Id>, user: Id)
    requires user in users
    ensures |Beyond(users, Some(user))| <= |users| - 1
  {
    if Less(user, user) {
      LessAsymmetric(user, user);
    }
    SubsetSize(Beyond(users, Some(user)), users - {user});
  }

  lemma BeyondShrinks(users: set<Id>, cursor: Id, user: Id)
    requires user in users && Less(cursor, user)
    ensures |Beyond(users, Some(user))| < |Beyond(users, Some(cursor))|
  {
    if Less(user, user) {
      LessAsymmetric(user, user);
    }
    forall u | u in Beyond(users, Some(user))
      ensures u in Beyond(users, Some(cursor)) - {user}
    {
      LessTransitive(cursor, user, u);
    }
    SubsetSize(Beyond(users, Some(user)), Beyond(users, Some(cursor)) - {user});
  }

  /** An upper bound on the claims until the target is claimed: its place in whole rounds, and the rest of this one. */
  function Wait(q: Queue, users: set<Id>, target: Job): int {
    (Place(q.jobs, target) - 1) * |users| + |Beyond(users, q.cursor)| + 1
  }

  /** Every claim brings the target nearer: it moves the cursor on, or it wraps and takes the first job of all. */
  lemma ClaimBringsNearer(q: Queue, users: set<Id>, target: Job)
    requires QueueOf(q, users) && target in q.jobs
    ensures Wait(Next(q, Claim), users, target) < Wait(q, users, target)
  {
    hide Claimed, NextUser, Precedes, Place, Beyond, Without;
    var beyond := NextUser(q.jobs, q.cursor);
    var wraps := q.cursor.None? || beyond.None?;
    if wraps {
      ClaimedLeast(q.jobs, q.cursor, target);
    } else {
      ClaimedLeast(q.jobs, q.cursor, beyond.value);
    }
    var job := Claimed(q.jobs, q.cursor).value;
    PlaceWithout(q.jobs, job, target);
    BeyondBound(users, job.user);
    if !wraps {
      BeyondShrinks(users, q.cursor.value, job.user);
    }
    var q' := Next(q, Claim);
    Nearer(Place(q.jobs, target), Place(q'.jobs, target), |users|, |Beyond(users, q.cursor)|, |Beyond(users, q'.cursor)|);
  }

  lemma Nearer(p: int, p': int, n: nat, b: nat, b': nat)
    requires (p' == p - 1 && b' < n) || (p' <= p && b' < b)
    ensures (p' - 1) * n + b' + 1 < (p - 1) * n + b + 1
  {
    if p' == p - 1 && b' < n {
      assert (p - 1) * n == (p' - 1) * n + n;
    } else {
      Rounds(p - 1, p' - 1, n);
    }
  }

  lemma Rounds(a: int, b: int, n: nat)
    requires b <= a
    ensures b * n <= a * n
  {
  }

  lemma NextKeepsQueue(q: Queue, event: Event, users: set<Id>)
    requires QueueOf(q, users) && (event.Arrive? ==> event.job.user in users)
    ensures QueueOf(Next(q, event), users)
  {
    if event.Claim? && Claimed(q.jobs, q.cursor).Some? {
      var job := Claimed(q.jobs, q.cursor).value;
      forall j | j in Without(q.jobs, job)
        ensures j.user in users
      {
        WithoutKeeps(q.jobs, job, j);
      }
    }
  }

  /** Arrivals come after the target, and from known users. */
  predicate LaterArrivals(events: seq<Event>, users: set<Id>, target: Job) {
    forall i | 0 <= i < |events| && events[i].Arrive? ::
      events[i].job.user in users && events[i].job != target && !Precedes(events[i].job, target)
  }

  lemma {:induction false} WaitDecreases(q: Queue, events: seq<Event>, users: set<Id>, target: Job)
    requires QueueOf(q, users) && LaterArrivals(events, users, target)
    requires target in Run(q, events).jobs
    ensures QueueOf(Run(q, events), users) && target in q.jobs
    ensures Wait(Run(q, events), users, target) <= Wait(q, users, target) - Claims(events)
  {
    if events != [] {
      var front, last := events[..|events| - 1], events[|events| - 1];
      var before := Run(q, front);
      match last
      case Arrive(job) =>
        assert target in before.jobs;
        WaitDecreases(q, front, users, target);
        PlaceAppend(before.jobs, job, target);
      case Claim =>
        var claimed := Claimed(before.jobs, before.cursor);
        if claimed.Some? {
          WithoutKeeps(before.jobs, claimed.value, target);
        }
        WaitDecreases(q, front, users, target);
        ClaimBringsNearer(before, users, target);
      NextKeepsQueue(before, last, users);
    }
  }

  /**
    Bounded waiting: while jobs arrive that come after it, a queued job is claimed within as many successful claims
    as its place times the number of users.
   */
  lemma BoundedWaiting(q: Queue, events: seq<Event>, users: set<Id>, target: Job)
    requires QueueOf(q, users) && LaterArrivals(events, users, target)
    requires Claims(events) >= Place(q.jobs, target) * |users|
    ensures target !in Run(q, events).jobs
  {
    hide Run, Place, Beyond, Claims;
    if target in Run(q, events).jobs {
      WaitDecreases(q, events, users, target);
      PlacePositive(Run(q, events).jobs, target);
      if q.cursor.Some? {
        BeyondBound(users, q.cursor.value);
      } else {
        NobodyBeyond(users);
      }
      assert target.user in users;
      SubsetSize({target.user}, users);
      TooLong(Place(q.jobs, target), Place(Run(q, events).jobs, target), |users|, |Beyond(users, q.cursor)|,
              |Beyond(users, Run(q, events).cursor)|, Claims(events));
    }
  }

  lemma NobodyBeyond(users: set<Id>)
    ensures Beyond(users, None) == {}
  {
  }

  lemma TooLong(p: int, p': int, n: nat, b: nat, b': nat, claims: nat)
    requires p' >= 1 && n >= 1 && b < n && claims >= p * n
    ensures (p' - 1) * n + b' + 1 > (p - 1) * n + b + 1 - claims
  {
    Rounds(p' - 1, 0, n);
    assert (p - 1) * n == p * n - n;
  }
}
