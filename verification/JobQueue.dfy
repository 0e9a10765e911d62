/** The `jobs` table of src/storage/schema.sql and the actor commands of src/storage/actor.rs that
    change it. Each command is a function of the table, and a method of `JobStore` that carries it
    out; a write the pending-only unique index refuses fails and changes nothing. */
module JobQueue {
  import opened Options

  datatype Key = Key(owner: string, repo: string, pr: int, kind: string)

  datatype NewJob = NewJob(key: Key, delivery: string, actor: Option<string>)

  datatype Row = Row(
    key: Key, delivery: string, actor: Option<string>, receivedAt: int, runAfter: int,
    leasedUntil: Option<int>, attempts: nat, experiment: Option<string>, progress: Option<string>)
  {
    predicate Pending() { leasedUntil.None? }
    predicate Due(now: int) { runAfter <= now && (leasedUntil.None? || leasedUntil.value <= now) }
  }

  type Table = map<nat, Row>

  /** The partial unique index: at most one pending row for a key. */
  ghost predicate Indexed(t: Table) {
    forall a, b :: a in t && b in t && t[a].Pending() && t[b].Pending() && t[a].key == t[b].key ==> a == b
  }

  // ---- the commands, as functions of the table ----

  /** Row `a` is leased before row `b`. */
  predicate Before(t: Table, a: nat, b: nat)
    requires a in t && b in t
  {
    t[a].runAfter < t[b].runAfter || (t[a].runAfter == t[b].runAfter && a < b)
  }

  /** The row LeaseNext picks at `now`: of those due, the one due longest, the oldest of these. */
  ghost predicate Picks(t: Table, now: int, id: nat) {
    && id in t && t[id].Due(now)
    && forall x :: x in t && t[x].Due(now) && x != id ==> Before(t, id, x)
  }

  function Leased(t: Table, id: nat, until: int): Table
    requires id in t
  {
    t[id := t[id].(leasedUntil := Some(until))]
  }

  function Without(t: Table, id: nat): Table {
    map x | x in t && x != id :: t[x]
  }

  /** The row handed back, to run at `runAfter`. */
  function Released(t: Table, id: nat, runAfter: int): Table
    requires id in t
  {
    t[id := t[id].(leasedUntil := None, runAfter := runAfter)]
  }

  /** Another pending row holds `id`'s key, so handing `id` back breaks the index. */
  predicate Blocked(t: Table, id: nat)
    requires id in t
  {
    exists x :: x in t && x != id && t[x].Pending() && t[x].key == t[id].key
  }

  function BackoffDelay(attempts: nat, backoff: seq<int>): (d: int)
    ensures if backoff == [] then d == 60 else d in backoff
  {
    if backoff == [] then 60
    else backoff[if attempts < |backoff| then attempts else |backoff| - 1]
  }

  /** With delays that never shrink, no failure is retried sooner than the one before, and past the
      end of the delays all wait the last. */
  lemma BackoffNeverShrinks(a: nat, b: nat, backoff: seq<int>)
    requires a <= b && forall i, j :: 0 <= i <= j < |backoff| ==> backoff[i] <= backoff[j]
    ensures BackoffDelay(a, backoff) <= BackoffDelay(b, backoff)
    ensures |backoff| <= a + 1 ==> BackoffDelay(a, backoff) == BackoffDelay(b, backoff)
    ensures forall d :: d in backoff ==> exists k: nat :: k < |backoff| && BackoffDelay(k, backoff) == d
  {
    forall d | d in backoff ensures exists k: nat :: k < |backoff| && BackoffDelay(k, backoff) == d {
      var k :| 0 <= k < |backoff| && backoff[k] == d;
      assert BackoffDelay(k, backoff) == d;
    }
  }

  function Retried(t: Table, id: nat, runAfter: int): Table
    requires id in t
  {
    t[id := t[id].(leasedUntil := None, runAfter := runAfter, attempts := t[id].attempts + 1)]
  }

  function Max(a: int, b: int): int { if a < b then b else a }

  /** A pending row with an event merged into it. */
  function Merged(r: Row, job: NewJob, runAfter: int): Row {
    r.(runAfter := Max(r.runAfter, runAfter), delivery := job.delivery, actor := job.actor, progress := None)
  }

  predicate Waiting(r: Row, key: Key) { r.Pending() && r.key == key }

  function Coalesced(t: Table, job: NewJob, runAfter: int): Table {
    map x | x in t :: if Waiting(t[x], job.key) then Merged(t[x], job, runAfter) else t[x]
  }

  function FreshRow(job: NewJob, now: int, runAfter: int): Row {
    Row(job.key, job.delivery, job.actor, now, runAfter, None, 0, None, None)
  }

  /** Row by row: an event merged into the pending rows of its key leaves every other row as it was. */
  lemma CoalescedRows(t: Table, job: NewJob, runAfter: int)
    ensures Coalesced(t, job, runAfter).Keys == t.Keys
    ensures forall x :: x in t ==>
      var was := t[x];
      Coalesced(t, job, runAfter)[x] == if was.leasedUntil.Some? || was.key != job.key then was
        else Row(was.key, job.delivery, job.actor, was.receivedAt,
                 if was.runAfter < runAfter then runAfter else was.runAfter,
                 None, was.attempts, was.experiment, None)
  {
  }

  /** The table after the pull request's pending rows are deleted. */
  function Closed(t: Table, owner: string, repo: string, pr: int): Table {
    map x | x in t && !(t[x].Pending() && t[x].key.owner == owner && t[x].key.repo == repo && t[x].key.pr == pr) :: t[x]
  }

  /** A due row exists, so one is picked. */
  lemma {:induction false} PickExists(t: Table, now: int, due: set<nat>) returns (id: nat)
    requires due != {}
    requires forall x :: x in due ==> x in t && t[x].Due(now)
    ensures id in due && forall x :: x in due && x != id ==> Before(t, id, x)
    decreases |due|
  {
    var a :| a in due;
    var rest := due - {a};
    assert forall x :: x in due ==> x == a || x in rest;
    if rest == {} {
      id := a;
    } else {
      var b := PickExists(t, now, rest);
      id := if Before(t, a, b) then a else b;
    }
  }

  lemma PickIsUnique(t: Table, now: int, a: nat, b: nat)
    requires Picks(t, now, a) && Picks(t, now, b)
    ensures a == b
  {
    var forth, back := Before(t, a, b), Before(t, b, a);
  }

  // ---- the store ----

  datatype LeasedJob = LeasedJob(id: nat, row: Row)

  class JobStore {
    var jobs: Table
    /** The next id; ids are never used twice. */
    var nextId: nat

    constructor ()
      ensures Valid() && jobs == map[]
    {
      jobs, nextId := map[], 1;
    }

    ghost predicate Valid()
      reads this
    {
      Indexed(jobs) && forall x :: x in jobs ==> x < nextId
    }

    method LeaseNext(now: int, leaseSecs: int) returns (job: Option<LeasedJob>)
      requires Valid()
      modifies `jobs
      ensures Valid()
      ensures job.None? ==> jobs == old(jobs) && forall x :: x in jobs ==> !jobs[x].Due(now)
      ensures job.Some? ==>
        && Picks(old(jobs), now, job.value.id)
        && job.value.row == old(jobs)[job.value.id]
        && jobs == Leased(old(jobs), job.value.id, now + leaseSecs)
      // In full: of the rows whose time has come and that no live lease holds, the one due longest, and of
      // these the oldest, is leased until its time, and nothing else changes.
      ensures job.None? ==> forall x :: x in jobs ==>
        now < jobs[x].runAfter || (jobs[x].leasedUntil.Some? && now < jobs[x].leasedUntil.value)
      ensures job.Some? ==>
        var id, was := job.value.id, job.value.row;
        && id in old(jobs) && jobs == old(jobs)[id := was.(leasedUntil := Some(now + leaseSecs))]
        && was.runAfter <= now && (was.leasedUntil.Some? ==> was.leasedUntil.value <= now)
      ensures job.Some? ==> forall x :: x in old(jobs) ==>
        var row, was := old(jobs)[x], job.value.row;
        || now < row.runAfter || (row.leasedUntil.Some? && now < row.leasedUntil.value)
        || was.runAfter < row.runAfter || (was.runAfter == row.runAfter && job.value.id <= x)
    {
      var due := set x | x in jobs && jobs[x].Due(now);
      assert forall x :: x in jobs && jobs[x].Due(now) ==> x in due;
      if due == {} {
        return None;
      }
      ghost var pick := PickExists(jobs, now, due);
      var id :| id in due && forall x :: x in due && x != id ==> Before(jobs, id, x);
      job := Some(LeasedJob(id, jobs[id]));
      jobs := Leased(jobs, id, now + leaseSecs);
    }

    method Ack(id: nat)
      requires Valid()
      modifies `jobs
      ensures Valid() && jobs == Without(old(jobs), id) == old(jobs) - {id}
    {
      jobs := Without(jobs, id);
    }

    /** Hand a row back. It fails, leaving the row leased, when an event has queued another. */
    method RescheduleAt(id: nat, runAfter: int) returns (ok: bool)
      requires Valid()
      modifies `jobs
      ensures Valid()
      ensures ok <==> id !in old(jobs) || !Blocked(old(jobs), id)
      ensures jobs == if id in old(jobs) && ok then Released(old(jobs), id, runAfter) else old(jobs)
      // In full: it fails if another pending row has the row's key, and else changes only when it runs.
      ensures !ok ==> exists x :: x in old(jobs) && x != id && Waiting(old(jobs)[x], old(jobs)[id].key)
      ensures ok ==> id !in old(jobs) || forall x :: x in old(jobs) && x != id ==>
        old(jobs)[x].leasedUntil.Some? || old(jobs)[x].key != old(jobs)[id].key
      ensures id in old(jobs) && ok ==>
        jobs == old(jobs)[id := old(jobs)[id].(leasedUntil := None, runAfter := runAfter)]
    {
      if id !in jobs {
        return true;
      }
      ok := !Blocked(jobs, id);
      if ok {
        jobs := Released(jobs, id, runAfter);
      }
    }

    /** Count a failed attempt: the row goes back to the queue, or is deleted at the limit. */
    method Nack(id: nat, now: int, maxAttempts: int, backoff: seq<int>) returns (ok: bool, alive: bool)
      requires Valid()
      modifies `jobs
      ensures Valid()
      ensures if id !in old(jobs) then ok && !alive && jobs == old(jobs)
              else if old(jobs)[id].attempts + 1 >= maxAttempts then ok && !alive && jobs == Without(old(jobs), id)
              else if Blocked(old(jobs), id) then !ok && jobs == old(jobs)
              else ok && alive && jobs == Retried(old(jobs), id, now + BackoffDelay(old(jobs)[id].attempts, backoff))
      // In full: a row that goes back has one attempt more, and waits the delay of those it had.
      ensures alive <==> ok && id in jobs
      ensures !alive && ok ==> jobs == old(jobs) - {id}
      ensures alive ==>
        id in old(jobs) &&
        var was := old(jobs)[id];
        var delay := if backoff == [] then 60
          else if was.attempts < |backoff| then backoff[was.attempts] else backoff[|backoff| - 1];
        jobs == old(jobs)[id := was.(leasedUntil := None, runAfter := now + delay, attempts := was.attempts + 1)]
    {
      ok, alive := true, false;
      if id in jobs {
        var attempts := jobs[id].attempts;
        if attempts + 1 >= maxAttempts {
          jobs := Without(jobs, id);
        } else if Blocked(jobs, id) {
          ok := false;
        } else {
          jobs, alive := Retried(jobs, id, now + BackoffDelay(attempts, backoff)), true;
        }
      }
    }

    /** Queue an event: merged into the key's pending row if there is one, else a row of its own.
        The insert cannot break the index. */
    method Enqueue(job: NewJob, now: int, runAfter: int)
      requires Valid()
      modifies this
      ensures Valid()
      ensures if exists x :: x in old(jobs) && Waiting(old(jobs)[x], job.key)
              then jobs == Coalesced(old(jobs), job, runAfter) && nextId == old(nextId)
              else
                && jobs == old(jobs)[old(nextId) := FreshRow(job, now, runAfter)] && nextId == old(nextId) + 1
                && FreshRow(job, now, runAfter) ==
                     Row(job.key, job.delivery, job.actor, now, runAfter, None, 0, None, None)
    {
      var updated := set x | x in jobs && Waiting(jobs[x], job.key);
      assert forall x :: x in jobs && Waiting(jobs[x], job.key) ==> x in updated;
      jobs := Coalesced(jobs, job, runAfter);
      if |updated| == 0 {
        assert jobs == old(jobs);
        jobs := jobs[nextId := FreshRow(job, now, runAfter)];
        nextId := nextId + 1;
      }
    }

    method CancelPrJobs(owner: string, repo: string, pr: int)
      requires Valid()
      modifies `jobs
      ensures Valid() && jobs == Closed(old(jobs), owner, repo, pr)
      // Row by row: those of the pull request that are pending are gone, and every other is as it was.
      ensures forall x :: x in jobs ==> x in old(jobs) && jobs[x] == old(jobs)[x]
      ensures forall x :: x in old(jobs) ==>
        var row := old(jobs)[x];
        x in jobs <==> row.leasedUntil.Some? || row.key.owner != owner || row.key.repo != repo || row.key.pr != pr
    {
      jobs := Closed(jobs, owner, repo, pr);
    }

    method SetRackExperiment(id: nat, experiment: Option<string>)
      requires Valid()
      modifies `jobs
      ensures Valid()
      ensures jobs == if id in old(jobs) then old(jobs)[id := old(jobs)[id].(experiment := experiment)] else old(jobs)
    {
      if id in jobs {
        jobs := jobs[id := jobs[id].(experiment := experiment)];
      }
    }

    method SetReviewProgress(id: nat, progress: string)
      requires Valid()
      modifies `jobs
      ensures Valid()
      ensures jobs == if id in old(jobs) then old(jobs)[id := old(jobs)[id].(progress := Some(progress))] else old(jobs)
    {
      if id in jobs {
        jobs := jobs[id := jobs[id].(progress := Some(progress))];
      }
    }
  }
}
