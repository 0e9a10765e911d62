/** The worker loop of src/dispatcher/worker.rs: lease a job, run it, and settle its row by how the run
    ends, while the webhook queues events and closes pull requests. */
module Worker {
  import opened Options
  import opened JobQueue

  const MAX_ATTEMPTS := 3
  const BACKOFF: seq<int> := [60, 300, 1500]

  /** How a round ends. `Stopped` is the shutdown, which does not wait for a job that runs. */
  datatype Ran = Succeeded | RateLimited(resetIn: int) | Failed | Stopped

  /** What reaches the store during a round: the webhook's events, and the running job's notes on its
      row, of which there are none in a round that leases no job. */
  datatype Arrival =
    | Event(job: NewJob, at: int, runAfter: int)
    | PrClosed(owner: string, repo: string, pr: int)
    | Experiment(experiment: Option<string>)
    | Progress(progress: string)

  datatype Round = Round(now: int, arrivals: seq<Arrival>, ran: Ran, doneAt: int)

  function Note(row: Row, a: Arrival): Row {
    match a
    case Experiment(experiment) => row.(experiment := experiment)
    case Progress(progress) => row.(progress := Some(progress))
    case _ => row
  }

  /** The row of leased job `id` as `arrivals` leave it: only the job's own notes change it. */
  function Noted(row: Row, arrivals: seq<Arrival>): Row {
    if arrivals == [] then row else Note(Noted(row, arrivals[..|arrivals| - 1]), arrivals[|arrivals| - 1])
  }

  /** Every row has failed fewer times than a job may. */
  ghost predicate FewAttempts(t: Table) {
    forall x :: x in t ==> t[x].attempts < MAX_ATTEMPTS
  }

  /** Rows older than `nextId` keep their count of failures, but for one more of `failed`'s, and newer
      ones have none. */
  ghost predicate CountsKept(before: Table, nextId: nat, after: Table, failed: Option<nat>) {
    && (forall x :: x in after && x < nextId ==>
          x in before && after[x].attempts == before[x].attempts + (if failed == Some(x) then 1 else 0))
    && (forall x :: x in after && x >= nextId ==> after[x].attempts == 0)
  }

  method ArriveOne(store: JobStore, id: nat, a: Arrival)
    requires store.Valid() && id in store.jobs && !store.jobs[id].Pending()
    modifies store
    ensures store.Valid() && store.nextId >= old(store.nextId)
    ensures id in store.jobs && store.jobs[id] == Note(old(store.jobs[id]), a)
    ensures CountsKept(old(store.jobs), old(store.nextId), store.jobs, None)
  {
    match a {
      case Event(job, at, runAfter) => store.Enqueue(job, at, runAfter);
      case PrClosed(owner, repo, pr) => store.CancelPrJobs(owner, repo, pr);
      case Experiment(experiment) => store.SetRackExperiment(id, experiment);
      case Progress(progress) => store.SetReviewProgress(id, progress);
    }
  }

  /** The events and notes that come while job `id` runs. No event touches the row of a job that runs:
      it is not pending, so that nothing is merged into it and no close deletes it. */
  method Arrive(store: JobStore, id: nat, arrivals: seq<Arrival>)
    requires store.Valid() && id in store.jobs && !store.jobs[id].Pending()
    modifies store
    ensures store.Valid() && store.nextId >= old(store.nextId)
    ensures id in store.jobs && store.jobs[id] == Noted(old(store.jobs[id]), arrivals)
    ensures CountsKept(old(store.jobs), old(store.nextId), store.jobs, None)
  {
    for i := 0 to |arrivals|
      invariant store.Valid() && store.nextId >= old(store.nextId)
      invariant id in store.jobs && store.jobs[id] == Noted(old(store.jobs[id]), arrivals[..i])
      invariant CountsKept(old(store.jobs), old(store.nextId), store.jobs, None)
    {
      assert arrivals[..i + 1][..i] == arrivals[..i];
      NotesKeepTheLease(old(store.jobs[id]), arrivals[..i]);
      ArriveOne(store, id, arrivals[i]);
    }
    assert arrivals[..|arrivals|] == arrivals;
  }

  predicate NotedKeepsLease(row: Row, arrivals: seq<Arrival>) {
    var noted := Noted(row, arrivals);
    && noted.leasedUntil == row.leasedUntil && noted.attempts == row.attempts
    && noted.key == row.key && noted.runAfter == row.runAfter
  }

  /** What the round makes of its job's row, `row` as the run left it. A hand-back that another row of
      the same key blocks leaves it leased, to be taken again when the lease runs out. */
  function Settled(row: Row, id: nat, blocked: bool, round: Round): Option<Row> {
    match round.ran
    case Succeeded => None
    case Stopped => Some(if blocked then row else row.(leasedUntil := None, runAfter := round.doneAt))
    case RateLimited(resetIn) =>
      var wait := (if resetIn < 0 then 0 else resetIn) + id % 10 + 5;
      Some(if blocked then row else row.(leasedUntil := None, runAfter := round.doneAt + wait))
    case Failed =>
      if row.attempts + 1 >= 3 then None
      else Some(if blocked then row
                else row.(leasedUntil := None, attempts := row.attempts + 1,
                          runAfter := round.doneAt + if row.attempts == 0 then 60 else 300))
  }

  /** What the loop does with the row of a job that is over. */
  method Settle(store: JobStore, id: nat, round: Round) returns (counted: bool)
    requires store.Valid() && id in store.jobs && store.jobs[id].attempts < MAX_ATTEMPTS && id < store.nextId
    modifies store
    ensures store.Valid() && store.nextId == old(store.nextId)
    ensures RowIs(store.jobs, id, Settled(old(store.jobs)[id], id, Blocked(old(store.jobs), id), round))
    // A failure is counted, unless a row of the same key is waiting and the job may fail again.
    ensures counted <==>
      round.ran.Failed? && (old(store.jobs)[id].attempts + 1 >= MAX_ATTEMPTS || !Blocked(old(store.jobs), id))
    ensures forall x :: x != id ==> (x in store.jobs <==> x in old(store.jobs))
    ensures forall x :: x != id && x in store.jobs ==> store.jobs[x] == old(store.jobs)[x]
  {
    counted := false;
    match round.ran {
      case Succeeded =>
        store.Ack(id);
      case Stopped =>
        var ok := store.RescheduleAt(id, round.doneAt);
      case RateLimited(resetIn) =>
        var ok := store.RescheduleAt(id, round.doneAt + Max(resetIn, 0) + id % 10 + 5);
      case Failed =>
        var ok, alive := store.Nack(id, round.doneAt, MAX_ATTEMPTS, BACKOFF);
        counted := ok;
    }
  }

  /** Another row of the key is waiting. */
  predicate RowWaits(t: Table, id: nat, key: Key) {
    exists x :: x in t && x != id && t[x].Pending() && t[x].key == key
  }

  /** The job leased as row `id`: its run, and what comes of its row. A hand-back is blocked exactly if
      another row of its key is waiting then. */
  method RunLeased(store: JobStore, id: nat, round: Round) returns (counted: bool)
    requires store.Valid() && id in store.jobs && !store.jobs[id].Pending() && store.jobs[id].attempts < MAX_ATTEMPTS
    modifies store
    ensures store.Valid() && store.nextId >= old(store.nextId)
    ensures var row := Noted(old(store.jobs[id]), round.arrivals);
            RowIs(store.jobs, id, Settled(row, id, RowWaits(store.jobs, id, row.key), round))
    ensures counted ==> round.ran.Failed?
    ensures CountsKept(old(store.jobs), old(store.nextId), store.jobs, if counted then Some(id) else None)
  {
    NotesKeepTheLease(store.jobs[id], round.arrivals);
    Arrive(store, id, round.arrivals);
    ghost var key, before := store.jobs[id].key, store.jobs;
    counted := Settle(store, id, round);
    assert Blocked(before, id) <==> RowWaits(store.jobs, id, key);
  }

  /** Events that come while no job runs. */
  method ArriveIdle(store: JobStore, arrivals: seq<Arrival>)
    requires store.Valid()
    modifies store
    ensures store.Valid() && store.nextId >= old(store.nextId)
    ensures CountsKept(old(store.jobs), old(store.nextId), store.jobs, None)
  {
    for i := 0 to |arrivals|
      invariant store.Valid() && store.nextId >= old(store.nextId)
      invariant CountsKept(old(store.jobs), old(store.nextId), store.jobs, None)
    {
      match arrivals[i] {
        case Event(job, at, runAfter) => store.Enqueue(job, at, runAfter);
        case PrClosed(owner, repo, pr) => store.CancelPrJobs(owner, repo, pr);
        case Experiment(_) =>
        case Progress(_) =>
      }
    }
  }

  lemma CountsCompose(a: Table, aNext: nat, b: Table, bNext: nat, c: Table, failed: Option<nat>)
    requires aNext <= bNext && CountsKept(a, aNext, b, None) && CountsKept(b, bNext, c, failed)
    requires failed.Some? ==> failed.value < aNext
    ensures CountsKept(a, aNext, c, failed)
  {
  }

  /** Lease a job: no row's count of failures changes. */
  method Lease(store: JobStore, now: int, leaseSecs: int) returns (job: Option<LeasedJob>)
    requires store.Valid()
    modifies store`jobs
    ensures store.Valid() && CountsKept(old(store.jobs), store.nextId, store.jobs, None)
    ensures match job
            case None => forall x :: x in old(store.jobs) ==> !old(store.jobs)[x].Due(now)
            case Some(j) =>
              && Picks(old(store.jobs), now, j.id) && j.row == old(store.jobs)[j.id] && j.id < store.nextId
              && j.id in store.jobs && store.jobs[j.id] == j.row.(leasedUntil := Some(now + leaseSecs))
  {
    job := store.LeaseNext(now, leaseSecs);
  }

  /** What one round of the loop makes of a table: the job that it leased, if one was due, and whether
      a failure was counted against it. */
  datatype Made = Made(before: Table, nextId: nat, job: Option<nat>, counted: bool, after: Table) {
    function Failed(): Option<nat> { if counted then job else None }
  }

  ghost predicate MadeBy(m: Made, leaseSecs: int, round: Round) {
    && CountsKept(m.before, m.nextId, m.after, m.Failed())
    && match m.job
      case None => !m.counted && forall x :: x in m.before ==> !m.before[x].Due(round.now)
      case Some(id) =>
        && Picks(m.before, round.now, id) && (m.counted ==> round.ran.Failed?)
        && var row := Noted(m.before[id].(leasedUntil := Some(round.now + leaseSecs)), round.arrivals);
          RowIs(m.after, id, Settled(row, id, RowWaits(m.after, id, row.key), round))
  }

  /** One round of the loop. */
  method Turn(store: JobStore, leaseSecs: int, round: Round) returns (job: Option<LeasedJob>, counted: bool)
    requires store.Valid() && FewAttempts(store.jobs)
    modifies store
    ensures store.Valid() && store.nextId >= old(store.nextId)
    ensures var id := if job.Some? then Some(job.value.id) else None;
            MadeBy(Made(old(store.jobs), old(store.nextId), id, counted, store.jobs), leaseSecs, round)
  {
    counted := false;
    job := Lease(store, round.now, leaseSecs);
    ghost var leased, next := store.jobs, store.nextId;
    if job.Some? {
      counted := RunLeased(store, job.value.id, round);
    } else {
      ArriveIdle(store, round.arrivals);
    }
    CountsCompose(old(store.jobs), next, leased, next, store.jobs, if counted then Some(job.value.id) else None);
  }

  predicate RowIs(t: Table, id: nat, row: Option<Row>) {
    match row
    case None => id !in t
    case Some(r) => id in t && t[id] == r
  }

  lemma {:induction false} NotesKeepTheLease(row: Row, arrivals: seq<Arrival>)
    ensures NotedKeepsLease(row, arrivals)
    decreases |arrivals|
  {
    if arrivals != [] {
      NotesKeepTheLease(row, arrivals[..|arrivals| - 1]);
    }
  }

  function Times(ids: seq<nat>, id: nat): nat {
    if ids == [] then 0 else Times(ids[..|ids| - 1], id) + if ids[|ids| - 1] == id then 1 else 0
  }

  /** The failures counted against a job before the worker starts. */
  function Attempts(t: Table, id: nat): nat {
    if id in t then t[id].attempts else 0
  }

  /** `failures` are what has been counted, job by job, since the table was `first`, and with what was
      counted before they are never more than a job may have. */
  ghost predicate Tallied(first: Table, failures: seq<nat>, t: Table, nextId: nat) {
    && FewAttempts(t)
    && (forall id: nat :: Attempts(first, id) + Times(failures, id) <= 3)
    && (forall id: nat :: id >= nextId ==> Attempts(first, id) == 0 && Times(failures, id) == 0)
    && (forall id: nat :: id in t ==> t[id].attempts == Attempts(first, id) + Times(failures, id))
  }

  /** A failure more is tallied, if the job's row is gone when it was its last. */
  lemma TallyGrows(first: Table, failures: seq<nat>, t: Table, nextId: nat, after: Table, afterNext: nat,
                   failed: Option<nat>)
    requires Tallied(first, failures, t, nextId) && CountsKept(t, nextId, after, failed) && nextId <= afterNext
    requires failed.Some? ==> failed.value in t && failed.value < nextId
    requires failed.Some? && failed.value in after ==> after[failed.value].attempts < MAX_ATTEMPTS
    ensures Tallied(first, if failed.Some? then failures + [failed.value] else failures, after, afterNext)
  {
    if failed.Some? {
      var more := failures + [failed.value];
      assert more[..|failures|] == failures;
      assert forall id: nat :: Times(more, id) == Times(failures, id) + (if id == failed.value then 1 else 0);
    }
  }

  /** The failures counted in these rounds, in order. */
  function Counted(made: seq<Made>): seq<nat> {
    if made == [] then []
    else
      var m := made[|made| - 1];
      Counted(made[..|made| - 1]) + if m.Failed().Some? then [m.job.value] else []
  }

  /** Rounds that take the table from `first` to `last`, the first of `rounds`, and stopped by none but
      the latest. */
  ghost predicate AllMade(made: seq<Made>, leaseSecs: int, rounds: seq<Round>, first: Table, last: Table) {
    if made == [] then first == last
    else
      var end := |made| - 1;
      && AllMade(made[..end], leaseSecs, rounds, first, made[end].before)
      && end < |rounds| && MadeBy(made[end], leaseSecs, rounds[end]) && made[end].after == last
      && (end > 0 ==> !rounds[end - 1].ran.Stopped?)
  }

  lemma OneMore(made: seq<Made>, m: Made, leaseSecs: int, rounds: seq<Round>, first: Table)
    requires AllMade(made, leaseSecs, rounds, first, m.before)
    requires |made| < |rounds| && MadeBy(m, leaseSecs, rounds[|made|])
    requires made != [] ==> !rounds[|made| - 1].ran.Stopped?
    ensures AllMade(made + [m], leaseSecs, rounds, first, m.after)
    ensures Counted(made + [m]) == Counted(made) + (if m.Failed().Some? then [m.job.value] else [])
  {
    assert (made + [m])[..|made|] == made;
  }

  /** One round more, tallied. */
  method TallyTurn(store: JobStore, leaseSecs: int, round: Round, failures: seq<nat>, ghost first: Table)
    returns (failures': seq<nat>, stops: bool, ghost m: Made)
    requires store.Valid() && Tallied(first, failures, store.jobs, store.nextId)
    modifies store
    ensures store.Valid() && Tallied(first, failures', store.jobs, store.nextId)
    ensures MadeBy(m, leaseSecs, round) && m.before == old(store.jobs) && m.after == store.jobs
    ensures failures' == failures + (if m.Failed().Some? then [m.job.value] else []) && (stops <==> round.ran.Stopped?)
  {
    ghost var next := store.nextId;
    var job, counted := Turn(store, leaseSecs, round);
    m := Made(old(store.jobs), next, if job.Some? then Some(job.value.id) else None, counted, store.jobs);
    TallyGrows(first, failures, m.before, next, m.after, store.nextId, m.Failed());
    failures' := if counted then failures + [job.value.id] else failures;
    stops := round.ran.Stopped?;
  }

  /** The loop, up to the round that is stopped, on whatever jobs there are and come. No job is counted
      failed more often than it may, those before included. */
  method RunWorker(store: JobStore, leaseSecs: int, rounds: seq<Round>)
    returns (failures: seq<nat>, ghost made: seq<Made>)
    requires store.Valid() && FewAttempts(store.jobs)
    modifies store
    ensures store.Valid() && AllMade(made, leaseSecs, rounds, old(store.jobs), store.jobs)
    ensures |made| == |rounds| || (made != [] && |made| < |rounds| && rounds[|made| - 1].ran.Stopped?)
    ensures failures == Counted(made)
    ensures Tallied(old(store.jobs), failures, store.jobs, store.nextId)
  {
    failures, made := [], [];
    for i := 0 to |rounds|
      invariant |made| == i && store.Valid() && (i > 0 ==> !rounds[i - 1].ran.Stopped?)
      invariant AllMade(made, leaseSecs, rounds, old(store.jobs), store.jobs) && failures == Counted(made)
      invariant Tallied(old(store.jobs), failures, store.jobs, store.nextId)
    {
      var stops;
      ghost var m;
      failures, stops, m := TallyTurn(store, leaseSecs, rounds[i], failures, old(store.jobs));
      OneMore(made, m, leaseSecs, rounds, old(store.jobs));
      made := made + [m];
      if stops {
        return;
      }
    }
  }
}
