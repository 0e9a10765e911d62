/** Whole runs of the job queue: any interleaving of the workers' and the webhook's commands.

    A grant is named by the step that made it, so `g < m` says that lease `g` was taken before
    step `m`. Ack and Nack name only a row in the source; here they name the grant of the worker
    that sends them, and `Legit` says that it still holds the row. */
module QueueRuns {
  import opened Options
  import opened JobQueue

  datatype Cmd =
    | Lease(now: int, secs: int)
    | Ack(grant: nat)
    | Nack(grant: nat, now: int, maxAttempts: int, backoff: seq<int>)
    | Reschedule(grant: nat, runAfter: int)
    | Enqueue(job: NewJob, now: int, runAfter: int)
    | Close(owner: string, repo: string, pr: int)
    | SetExperiment(id: nat, experiment: Option<string>)
    | SetProgress(id: nat, progress: string)

  /** The table, the row each grant is of, and the latest grant of each leased row. */
  datatype World = World(jobs: Table, nextId: nat, grants: map<nat, nat>, holder: map<nat, nat>)

  const START: World := World(map[], 1, map[], map[])

  ghost function Pick(t: Table, now: int): Option<nat> {
    if exists id :: Picks(t, now, id) then
      var id :| Picks(t, now, id);
      Some(id)
    else None
  }

  lemma PickOfADueRow(t: Table, now: int, x: nat)
    requires x in t && t[x].Due(now)
    ensures Pick(t, now).Some? && Picks(t, now, Pick(t, now).value)
  {
    var due := set y | y in t && t[y].Due(now);
    assert forall y :: y in t && t[y].Due(now) ==> y in due;
    assert x in due;
    var id := PickExists(t, now, due);
    assert Picks(t, now, id);
  }

  /** The row an enqueued event goes into. */
  ghost function Carrier(w: World, job: NewJob): nat {
    if exists x :: x in w.jobs && Waiting(w.jobs[x], job.key) then
      var x :| x in w.jobs && Waiting(w.jobs[x], job.key);
      x
    else w.nextId
  }

  function Freed(w: World, id: nat): map<nat, nat> {
    map x | x in w.holder && x != id :: w.holder[x]
  }

  /** Step `k`, carrying out `c`. */
  ghost function Step(w: World, k: nat, c: Cmd): World {
    match c
    case Lease(now, secs) =>
      if Pick(w.jobs, now).Some? && Pick(w.jobs, now).value in w.jobs then
        var id := Pick(w.jobs, now).value;
        World(Leased(w.jobs, id, now + secs), w.nextId, w.grants[k := id], w.holder[id := k])
      else w
    case Ack(g) =>
      if g in w.grants then w.(jobs := Without(w.jobs, w.grants[g]), holder := Freed(w, w.grants[g])) else w
    case Nack(g, now, maxAttempts, backoff) =>
      if g in w.grants && w.grants[g] in w.jobs then
        var id := w.grants[g];
        if w.jobs[id].attempts + 1 >= maxAttempts then
          w.(jobs := Without(w.jobs, id), holder := Freed(w, id))
        else if Blocked(w.jobs, id) then w
        else
          w.(jobs := Retried(w.jobs, id, now + BackoffDelay(w.jobs[id].attempts, backoff)), holder := Freed(w, id))
      else w
    case Reschedule(g, runAfter) =>
      if g in w.grants && w.grants[g] in w.jobs && !Blocked(w.jobs, w.grants[g]) then
        w.(jobs := Released(w.jobs, w.grants[g], runAfter), holder := Freed(w, w.grants[g]))
      else w
    case Enqueue(job, now, runAfter) =>
      if exists x :: x in w.jobs && Waiting(w.jobs[x], job.key) then
        w.(jobs := Coalesced(w.jobs, job, runAfter))
      else
        w.(jobs := w.jobs[w.nextId := FreshRow(job, now, runAfter)], nextId := w.nextId + 1)
    case Close(owner, repo, pr) => w.(jobs := Closed(w.jobs, owner, repo, pr))
    case SetExperiment(id, experiment) =>
      if id in w.jobs then w.(jobs := w.jobs[id := w.jobs[id].(experiment := experiment)]) else w
    case SetProgress(id, progress) =>
      if id in w.jobs then w.(jobs := w.jobs[id := w.jobs[id].(progress := Some(progress))]) else w
  }

  /** The store carries out each command as `Step` does. */
  method Execute(store: JobStore, ghost w: World, ghost k: nat, c: Cmd, grants: map<nat, nat>)
    requires store.Valid() && store.jobs == w.jobs && store.nextId == w.nextId && grants == w.grants
    modifies store
    ensures store.Valid() && store.jobs == Step(w, k, c).jobs && store.nextId == Step(w, k, c).nextId
  {
    match c
    case Lease(now, secs) =>
      var job := store.LeaseNext(now, secs);
      if job.Some? {
        PickOfADueRow(w.jobs, now, job.value.id);
        PickIsUnique(w.jobs, now, job.value.id, Pick(w.jobs, now).value);
      }
    case Ack(g) =>
      if g in grants {
        store.Ack(grants[g]);
      }
    case Nack(g, now, maxAttempts, backoff) =>
      if g in grants {
        var _, _ := store.Nack(grants[g], now, maxAttempts, backoff);
      }
    case Reschedule(g, runAfter) =>
      if g in grants {
        var _ := store.RescheduleAt(grants[g], runAfter);
      }
    case Enqueue(job, now, runAfter) => store.Enqueue(job, now, runAfter);
    case Close(owner, repo, pr) => store.CancelPrJobs(owner, repo, pr);
    case SetExperiment(id, experiment) => store.SetRackExperiment(id, experiment);
    case SetProgress(id, progress) => store.SetReviewProgress(id, progress);
  }

  /** `g` is the grant under which its row is leased. */
  predicate Holds(w: World, g: nat) {
    g in w.grants && w.grants[g] in w.holder && w.holder[w.grants[g]] == g
  }

  /** A worker speaks for the row only while it holds it. */
  predicate Legit(w: World, c: Cmd) {
    (c.Ack? || c.Nack? || c.Reschedule?) ==> Holds(w, c.grant)
  }

  /** `ws` are the worlds the first `k` commands go through, each sent by a worker that may send it. */
  ghost predicate IsRun(cmds: seq<Cmd>, ws: seq<World>, k: nat) {
    && |ws| == |cmds| + 1 && k <= |cmds|
    && if k == 0 then ws[0] == START
       else IsRun(cmds, ws, k - 1) && Legit(ws[k - 1], cmds[k - 1]) && ws[k] == Step(ws[k - 1], k - 1, cmds[k - 1])
  }

  lemma {:induction false} RunStep(cmds: seq<Cmd>, ws: seq<World>, j: nat, k: nat)
    requires IsRun(cmds, ws, j) && k < j
    ensures IsRun(cmds, ws, k) && Legit(ws[k], cmds[k]) && ws[k + 1] == Step(ws[k], k, cmds[k])
    decreases j
  {
    if k < j - 1 {
      RunStep(cmds, ws, j - 1, k);
    }
  }

  // ---- what every run keeps ----

  /** The grants in `w` are leases taken by step `k`. */
  ghost predicate GrantsTidy(cmds: seq<Cmd>, k: nat, grants: map<nat, nat>) {
    k <= |cmds| && forall g :: g in grants ==> g < k && cmds[g].Lease?
  }

  /** The rows that are leased are those held, each by a grant of it, until its lease time. */
  ghost predicate HeldTidy(cmds: seq<Cmd>, jobs: Table, grants: map<nat, nat>, holder: map<nat, nat>) {
    && (forall x :: x in jobs && !jobs[x].Pending() ==> x in holder)
    && (forall x :: x in holder ==>
          && x in jobs && holder[x] in grants && grants[holder[x]] == x
          && holder[x] < |cmds| && cmds[holder[x]].Lease?
          && jobs[x].leasedUntil == Some(cmds[holder[x]].now + cmds[holder[x]].secs))
  }

  ghost predicate Tidy(cmds: seq<Cmd>, k: nat, w: World) {
    && Indexed(w.jobs) && (forall x :: x in w.jobs ==> x < w.nextId)
    && GrantsTidy(cmds, k, w.grants) && HeldTidy(cmds, w.jobs, w.grants, w.holder)
  }

  lemma LeaseIsTidy(cmds: seq<Cmd>, k: nat, w: World, id: nat)
    requires k < |cmds| && cmds[k].Lease? && Tidy(cmds, k, w) && id in w.jobs
    ensures var jobs := Leased(w.jobs, id, cmds[k].now + cmds[k].secs);
            Tidy(cmds, k + 1, World(jobs, w.nextId, w.grants[k := id], w.holder[id := k]))
  {
  }

  lemma DropIsTidy(cmds: seq<Cmd>, k: nat, w: World, id: nat)
    requires k < |cmds| && Tidy(cmds, k, w)
    ensures Tidy(cmds, k + 1, w.(jobs := Without(w.jobs, id), holder := Freed(w, id)))
  {
  }

  lemma HandBackIsTidy(cmds: seq<Cmd>, k: nat, w: World, id: nat, row: Row)
    requires k < |cmds| && Tidy(cmds, k, w) && id in w.jobs && !Blocked(w.jobs, id)
    requires row.Pending() && row.key == w.jobs[id].key
    ensures Tidy(cmds, k + 1, w.(jobs := w.jobs[id := row], holder := Freed(w, id)))
  {
  }

  lemma InsertIsTidy(cmds: seq<Cmd>, k: nat, w: World, row: Row)
    requires k < |cmds| && Tidy(cmds, k, w) && row.Pending()
    requires forall x :: x in w.jobs ==> !Waiting(w.jobs[x], row.key)
    ensures Tidy(cmds, k + 1, w.(jobs := w.jobs[w.nextId := row], nextId := w.nextId + 1))
  {
    var t := w.jobs[w.nextId := row];
    assert Indexed(t);
    assert forall x :: x in w.holder ==> x in w.jobs && t[x] == w.jobs[x];
  }

  lemma MergeIsTidy(cmds: seq<Cmd>, k: nat, w: World, job: NewJob, runAfter: int)
    requires k < |cmds| && Tidy(cmds, k, w)
    ensures Tidy(cmds, k + 1, w.(jobs := Coalesced(w.jobs, job, runAfter)))
  {
    var t := Coalesced(w.jobs, job, runAfter);
    assert forall x :: x in t ==> x in w.jobs && t[x].key == w.jobs[x].key && t[x].leasedUntil == w.jobs[x].leasedUntil;
  }

  lemma CloseIsTidy(cmds: seq<Cmd>, k: nat, w: World, owner: string, repo: string, pr: int)
    requires k < |cmds| && Tidy(cmds, k, w)
    ensures Tidy(cmds, k + 1, w.(jobs := Closed(w.jobs, owner, repo, pr)))
  {
  }

  lemma NoteIsTidy(cmds: seq<Cmd>, k: nat, w: World, id: nat, row: Row)
    requires k < |cmds| && Tidy(cmds, k, w) && id in w.jobs
    requires row.leasedUntil == w.jobs[id].leasedUntil && row.key == w.jobs[id].key
    ensures Tidy(cmds, k + 1, w.(jobs := w.jobs[id := row]))
  {
  }

  lemma NackIsTidy(cmds: seq<Cmd>, k: nat, w: World)
    requires k < |cmds| && Tidy(cmds, k, w) && cmds[k].Nack? && Holds(w, cmds[k].grant)
    ensures Tidy(cmds, k + 1, Step(w, k, cmds[k]))
  {
    var Nack(g, now, maxAttempts, backoff) := cmds[k];
    var id := w.grants[g];
    if w.jobs[id].attempts + 1 >= maxAttempts {
      DropIsTidy(cmds, k, w, id);
    } else if !Blocked(w.jobs, id) {
      HandBackIsTidy(cmds, k, w, id, Retried(w.jobs, id, now + BackoffDelay(w.jobs[id].attempts, backoff))[id]);
    }
  }

  lemma RescheduleIsTidy(cmds: seq<Cmd>, k: nat, w: World)
    requires k < |cmds| && Tidy(cmds, k, w) && cmds[k].Reschedule? && Holds(w, cmds[k].grant)
    ensures Tidy(cmds, k + 1, Step(w, k, cmds[k]))
  {
    var id := w.grants[cmds[k].grant];
    if !Blocked(w.jobs, id) {
      HandBackIsTidy(cmds, k, w, id, Released(w.jobs, id, cmds[k].runAfter)[id]);
    }
  }

  lemma EnqueueIsTidy(cmds: seq<Cmd>, k: nat, w: World)
    requires k < |cmds| && Tidy(cmds, k, w) && cmds[k].Enqueue?
    ensures Tidy(cmds, k + 1, Step(w, k, cmds[k]))
  {
    var Enqueue(job, now, runAfter) := cmds[k];
    if exists x :: x in w.jobs && Waiting(w.jobs[x], job.key) {
      MergeIsTidy(cmds, k, w, job, runAfter);
    } else {
      InsertIsTidy(cmds, k, w, FreshRow(job, now, runAfter));
    }
  }

  lemma NotesAreTidy(cmds: seq<Cmd>, k: nat, w: World)
    requires k < |cmds| && Tidy(cmds, k, w) && (cmds[k].SetExperiment? || cmds[k].SetProgress?)
    ensures Tidy(cmds, k + 1, Step(w, k, cmds[k]))
  {
    match cmds[k]
    case SetExperiment(id, experiment) =>
      if id in w.jobs {
        NoteIsTidy(cmds, k, w, id, w.jobs[id].(experiment := experiment));
      }
    case SetProgress(id, progress) =>
      if id in w.jobs {
        NoteIsTidy(cmds, k, w, id, w.jobs[id].(progress := Some(progress)));
      }
  }

  lemma TakingIsTidy(cmds: seq<Cmd>, k: nat, w: World)
    requires k < |cmds| && Tidy(cmds, k, w) && (cmds[k].Lease? || cmds[k].Close? || cmds[k].Ack?)
    requires Legit(w, cmds[k])
    ensures Tidy(cmds, k + 1, Step(w, k, cmds[k]))
  {
    match cmds[k]
    case Lease(now, secs) =>
      if Pick(w.jobs, now).Some? && Pick(w.jobs, now).value in w.jobs {
        LeaseIsTidy(cmds, k, w, Pick(w.jobs, now).value);
      }
    case Ack(g) => DropIsTidy(cmds, k, w, w.grants[g]);
    case Close(owner, repo, pr) => CloseIsTidy(cmds, k, w, owner, repo, pr);
  }

  lemma StepIsTidy(cmds: seq<Cmd>, k: nat, w: World)
    requires k < |cmds| && Tidy(cmds, k, w) && Legit(w, cmds[k])
    ensures Tidy(cmds, k + 1, Step(w, k, cmds[k]))
  {
    match cmds[k]
    case Nack(_, _, _, _) => NackIsTidy(cmds, k, w);
    case Reschedule(_, _) => RescheduleIsTidy(cmds, k, w);
    case Enqueue(_, _, _) => EnqueueIsTidy(cmds, k, w);
    case SetExperiment(_, _) => NotesAreTidy(cmds, k, w);
    case SetProgress(_, _) => NotesAreTidy(cmds, k, w);
    case _ => TakingIsTidy(cmds, k, w);
  }

  lemma {:induction false} AlwaysTidy(cmds: seq<Cmd>, ws: seq<World>, k: nat)
    requires IsRun(cmds, ws, k)
    ensures Tidy(cmds, k, ws[k])
  {
    if k > 0 {
      AlwaysTidy(cmds, ws, k - 1);
      StepIsTidy(cmds, k - 1, ws[k - 1]);
    }
  }

  // ---- no accepted event is lost ----

  /** Row `r` still stands for the event that step `i` queued: if it is leased, by a worker that
      took it after that step, and so acts on what the event announced. */
  predicate Carries(w: World, r: nat, key: Key, i: nat) {
    r in w.jobs && w.jobs[r].key == key && (r in w.holder ==> w.holder[r] > i)
  }

  /** `c` disposes of the event for good: a worker that took the row after the event is done with
      it or has failed the last time it may, or the pull request closed while it waited. */
  predicate Disposes(w: World, c: Cmd, r: nat, i: nat) {
    r in w.jobs &&
    match c
    case Ack(g) => Holds(w, g) && w.grants[g] == r && g > i
    case Nack(g, _, maxAttempts, _) =>
      Holds(w, g) && w.grants[g] == r && g > i && w.jobs[r].attempts + 1 >= maxAttempts
    case Close(owner, repo, pr) =>
      w.jobs[r].Pending() && w.jobs[r].key.owner == owner && w.jobs[r].key.repo == repo && w.jobs[r].key.pr == pr
    case _ => false
  }

  lemma LeaseCarriesOn(cmds: seq<Cmd>, k: nat, w: World, r: nat, key: Key, i: nat)
    requires i < k < |cmds| && cmds[k].Lease? && Carries(w, r, key, i)
    ensures Carries(Step(w, k, cmds[k]), r, key, i)
  {
  }

  /** A worker's own command on a row it holds: its row is another, or it disposes of the event. */
  lemma WorkersCarryOn(cmds: seq<Cmd>, k: nat, w: World, r: nat, key: Key, i: nat)
    requires i < k < |cmds| && (cmds[k].Ack? || cmds[k].Nack? || cmds[k].Reschedule?)
    requires Holds(w, cmds[k].grant) && Carries(w, r, key, i)
    ensures Disposes(w, cmds[k], r, i) || Carries(Step(w, k, cmds[k]), r, key, i)
  {
  }

  lemma StepCarriesOn(cmds: seq<Cmd>, k: nat, w: World, r: nat, key: Key, i: nat)
    requires i < k < |cmds| && Tidy(cmds, k, w) && Legit(w, cmds[k]) && Carries(w, r, key, i)
    ensures Disposes(w, cmds[k], r, i) || Carries(Step(w, k, cmds[k]), r, key, i)
  {
    match cmds[k]
    case Lease(_, _) => LeaseCarriesOn(cmds, k, w, r, key, i);
    case Ack(_) => WorkersCarryOn(cmds, k, w, r, key, i);
    case Nack(_, _, _, _) => WorkersCarryOn(cmds, k, w, r, key, i);
    case Reschedule(_, _) => WorkersCarryOn(cmds, k, w, r, key, i);
    case _ =>
  }

  /** A queued event is in a pending row of its own key, which names its delivery and starts its
      review over. */
  lemma EnqueuedRow(cmds: seq<Cmd>, ws: seq<World>, i: nat)
    requires IsRun(cmds, ws, i) && i < |cmds| && cmds[i].Enqueue?
    ensures var w, r := Step(ws[i], i, cmds[i]), Carrier(ws[i], cmds[i].job);
      && Carries(w, r, cmds[i].job.key, i)
      && w.jobs[r].Pending() && w.jobs[r].runAfter >= cmds[i].runAfter
      && w.jobs[r].delivery == cmds[i].job.delivery && w.jobs[r].actor == cmds[i].job.actor
      && w.jobs[r].progress == None
  {
    AlwaysTidy(cmds, ws, i);
  }

  /** However the commands interleave, an event once queued is carried by a live row until a worker
      that took the row after it, or a close, disposes of it. */
  lemma {:induction false} NoEventIsLost(cmds: seq<Cmd>, ws: seq<World>, i: nat, j: nat)
    requires IsRun(cmds, ws, j) && i < j && cmds[i].Enqueue?
    ensures var r := Carrier(ws[i], cmds[i].job);
      || Carries(ws[j], r, cmds[i].job.key, i)
      || exists m :: i < m < j && Disposes(ws[m], cmds[m], r, i)
    decreases j
  {
    RunStep(cmds, ws, j, j - 1);
    if j == i + 1 {
      EnqueuedRow(cmds, ws, i);
    } else {
      NoEventIsLost(cmds, ws, i, j - 1);
      AlwaysTidy(cmds, ws, j - 1);
      var r, w := Carrier(ws[i], cmds[i].job), ws[j - 1];
      if Carries(w, r, cmds[i].job.key, i) {
        StepCarriesOn(cmds, j - 1, w, r, cmds[i].job.key, i);
      }
    }
  }

  /** `c` deletes row `r`: an ack, or a nack at the attempt limit, whose grant was of that row. */
  predicate Deletes(w: World, c: Cmd, r: nat) {
    r in w.jobs &&
    match c
    case Ack(g) => g in w.grants && w.grants[g] == r
    case Nack(g, _, maxAttempts, _) => g in w.grants && w.grants[g] == r && w.jobs[r].attempts + 1 >= maxAttempts
    case _ => false
  }

  /** What `Legit` is for, exactly: of the commands of workers that no longer hold their rows, those
      lose the event that delete its row, and no other does. */
  lemma StaleCommandLoses(k: nat, w: World, c: Cmd, r: nat, key: Key, i: nat)
    requires i < k && !Legit(w, c) && Carries(w, r, key, i)
    ensures !Carries(Step(w, k, c), r, key, i) <==> Deletes(w, c, r)
    ensures !Disposes(w, c, r, i)
  {
  }

  function StaleCmds(first: NewJob, second: NewJob): seq<Cmd> {
    [Enqueue(first, 0, 0), Lease(0, 60), Lease(60, 60), Reschedule(2, 60), Enqueue(second, 60, 60), Ack(1)]
  }

  function OneRow(row: Row, grants: map<nat, nat>, holder: map<nat, nat>): World {
    World(map[1 := row], 2, grants, holder)
  }

  function StaleWorlds(first: NewJob, second: NewJob): seq<World> {
    var row, twice := FreshRow(first, 0, 0), map[1 := 1, 2 := 1];
    var back := row.(runAfter := 60);
    [START, OneRow(row, map[], map[]), OneRow(row.(leasedUntil := Some(60)), map[1 := 1], map[1 := 1]),
     OneRow(row.(leasedUntil := Some(120)), twice, map[1 := 2]), OneRow(back, twice, map[]),
     OneRow(Merged(back, second, 60), twice, map[]), World(map[], 2, twice, map[])]
  }

  lemma LeaseOfOneRow(row: Row, grants: map<nat, nat>, holder: map<nat, nat>, k: nat, now: int, secs: int)
    requires row.Due(now)
    ensures Step(OneRow(row, grants, holder), k, Lease(now, secs)) ==
      OneRow(row.(leasedUntil := Some(now + secs)), grants[k := 1], holder[1 := k])
  {
    PickOfADueRow(OneRow(row, grants, holder).jobs, now, 1);
  }

  lemma MergeIntoOneRow(row: Row, grants: map<nat, nat>, k: nat, job: NewJob, now: int)
    requires Waiting(row, job.key)
    ensures var w := OneRow(row, grants, map[]);
      Step(w, k, Enqueue(job, now, now)) == OneRow(Merged(row, job, now), grants, map[]) && Carrier(w, job) == 1
  {
    var w := OneRow(row, grants, map[]);
    assert Waiting(w.jobs[1], job.key);
    assert Coalesced(w.jobs, job, now) == map[1 := Merged(row, job, now)];
  }

  lemma StaleSteps(first: NewJob, second: NewJob, k: nat)
    requires first.key == second.key && k < 6
    ensures var cmds, ws := StaleCmds(first, second), StaleWorlds(first, second);
      Step(ws[k], k, cmds[k]) == ws[k + 1] && (k == 4 ==> Carrier(ws[4], second) == 1)
  {
    var row := FreshRow(first, 0, 0);
    if k == 1 {
      LeaseOfOneRow(row, map[], map[], 1, 0, 60);
    } else if k == 2 {
      LeaseOfOneRow(row.(leasedUntil := Some(60)), map[1 := 1], map[1 := 1], 2, 60, 60);
    } else if k == 4 {
      MergeIntoOneRow(row.(runAfter := 60), map[1 := 1, 2 := 1], 4, second, 60);
    }
  }

  /** Such a command comes of a worker that outlives its lease: the row is leased again, and handed
      back, an event is merged into it, and the first worker acks. */
  lemma StaleAckLosesAnEvent(first: NewJob, second: NewJob) returns (cmds: seq<Cmd>, ws: seq<World>)
    requires first.key == second.key
    ensures cmds == StaleCmds(first, second) && IsRun(cmds, ws, 5)
    ensures ws[6] == Step(ws[5], 5, cmds[5]) && !Legit(ws[5], cmds[5])
    ensures Carries(ws[5], Carrier(ws[4], second), second.key, 4)
    ensures !Disposes(ws[5], cmds[5], Carrier(ws[4], second), 4) && Carrier(ws[4], second) !in ws[6].jobs
  {
    cmds, ws := StaleCmds(first, second), StaleWorlds(first, second);
    for k := 0 to 5
      invariant IsRun(cmds, ws, k)
    {
      StaleSteps(first, second, k);
    }
    StaleSteps(first, second, 4);
    StaleSteps(first, second, 5);
  }

  // ---- one worker at a time ----

  /** The worker of grant `g` gives its row up. A hand-back that is blocked does not. */
  predicate GivesUp(w: World, c: Cmd, g: nat) {
    g in w.grants && w.grants[g] in w.jobs &&
    match c
    case Ack(h) => h == g
    case Nack(h, _, maxAttempts, _) =>
      h == g && (w.jobs[w.grants[g]].attempts + 1 >= maxAttempts || !Blocked(w.jobs, w.grants[g]))
    case Reschedule(h, _) => h == g && !Blocked(w.jobs, w.grants[g])
    case _ => false
  }

  predicate HoldsUntil(w: World, r: nat, g: nat, until: int) {
    r in w.jobs && r in w.holder && w.holder[r] == g && w.jobs[r].leasedUntil == Some(until)
  }

  /** A lease that its worker has not given up stands until a LeaseNext at or after its time. */
  lemma StepKeepsLease(cmds: seq<Cmd>, k: nat, w: World, r: nat, g: nat, until: int)
    requires k < |cmds| && Tidy(cmds, k, w) && Legit(w, cmds[k]) && HoldsUntil(w, r, g, until)
    requires LeavesAlone(w, cmds[k], g, until)
    ensures HoldsUntil(Step(w, k, cmds[k]), r, g, until)
  {
    if cmds[k].Lease? {
      assert !w.jobs[r].Due(cmds[k].now);
    }
  }

  /** `c` leaves grant `g` of a lease until `until` alone. */
  predicate LeavesAlone(w: World, c: Cmd, g: nat, until: int) {
    !GivesUp(w, c, g) && (c.Lease? ==> c.now < until)
  }

  /** No step after `g` and before `m` touches the lease. */
  predicate LeftAlone(cmds: seq<Cmd>, ws: seq<World>, g: nat, until: int, m: nat)
    requires m <= |cmds| && |ws| == |cmds| + 1
    decreases m
  {
    m <= g + 1 || (LeftAlone(cmds, ws, g, until, m - 1) && LeavesAlone(ws[m - 1], cmds[m - 1], g, until))
  }

  lemma {:induction false} LeftAloneIfEach(cmds: seq<Cmd>, ws: seq<World>, g: nat, until: int, m: nat)
    requires m <= |cmds| && |ws| == |cmds| + 1
    requires forall k :: g < k < m ==> LeavesAlone(ws[k], cmds[k], g, until)
    ensures LeftAlone(cmds, ws, g, until, m)
    decreases m
  {
    if m > g + 1 {
      LeftAloneIfEach(cmds, ws, g, until, m - 1);
    }
  }

  /** Step `g` leases row `r`. */
  ghost predicate Grants(cmds: seq<Cmd>, ws: seq<World>, g: nat, r: nat)
    requires g < |cmds| && |ws| == |cmds| + 1
  {
    cmds[g].Lease? && Pick(ws[g].jobs, cmds[g].now) == Some(r)
  }

  lemma LeaseBegins(w: World, k: nat, c: Cmd, r: nat)
    requires c.Lease? && Pick(w.jobs, c.now) == Some(r)
    ensures HoldsUntil(Step(w, k, c), r, k, c.now + c.secs)
  {
    assert Picks(w.jobs, c.now, r);
  }

  lemma LeaseStandsAStep(cmds: seq<Cmd>, ws: seq<World>, k: nat, r: nat, g: nat, until: int)
    requires k < |cmds| && IsRun(cmds, ws, k + 1) && HoldsUntil(ws[k], r, g, until)
    requires LeavesAlone(ws[k], cmds[k], g, until)
    ensures HoldsUntil(ws[k + 1], r, g, until)
  {
    RunStep(cmds, ws, k + 1, k);
    AlwaysTidy(cmds, ws, k);
    StepKeepsLease(cmds, k, ws[k], r, g, until);
  }

  lemma {:induction false} LeaseStands(cmds: seq<Cmd>, ws: seq<World>, g: nat, r: nat, until: int, m: nat)
    requires IsRun(cmds, ws, m) && g < m && LeftAlone(cmds, ws, g, until, m)
    requires Grants(cmds, ws, g, r) && until == cmds[g].now + cmds[g].secs
    ensures HoldsUntil(ws[m], r, g, until)
    decreases m
  {
    RunStep(cmds, ws, m, m - 1);
    if g + 1 == m {
      LeaseBegins(ws[g], g, cmds[g], r);
    } else {
      LeaseStands(cmds, ws, g, r, until, m - 1);
      LeaseStandsAStep(cmds, ws, m - 1, r, g, until);
    }
  }

  /** When `Legit` is met: a worker that has not given up its row still holds it at step `m`
      if no LeaseNext has come at or after its lease time. */
  lemma InTimeIsLegit(cmds: seq<Cmd>, ws: seq<World>, g: nat, r: nat, m: nat)
    requires IsRun(cmds, ws, m) && g < m && Grants(cmds, ws, g, r)
    requires forall k :: g < k < m ==> LeavesAlone(ws[k], cmds[k], g, cmds[g].now + cmds[g].secs)
    ensures Holds(ws[m], g) && ws[m].grants[g] == r
  {
    LeftAloneIfEach(cmds, ws, g, cmds[g].now + cmds[g].secs, m);
    LeaseStands(cmds, ws, g, r, cmds[g].now + cmds[g].secs, m);
    AlwaysTidy(cmds, ws, m);
  }

  /** With a clock that does not run back, a row leased under `g` is leased again under `h` only
      once `g` has expired, or been given up. */
  lemma OneUnexpiredLease(cmds: seq<Cmd>, ws: seq<World>, g: nat, h: nat, r: nat) returns (end: nat)
    requires h < |cmds| && IsRun(cmds, ws, h) && g < h && Grants(cmds, ws, g, r) && Grants(cmds, ws, h, r)
    requires forall k :: g < k < h && cmds[k].Lease? ==> cmds[k].now <= cmds[h].now
    ensures cmds[h].now >= cmds[g].now + cmds[g].secs || (g < end < h && GivesUp(ws[end], cmds[end], g))
  {
    end := g;
    var until := cmds[g].now + cmds[g].secs;
    if k :| g < k < h && GivesUp(ws[k], cmds[k], g) {
      end := k;
    } else if cmds[h].now < until {
      LeftAloneIfEach(cmds, ws, g, until, h);
      LeaseStands(cmds, ws, g, r, until, h);
    }
  }

  // ---- closed pull requests ----

  predicate IsOf(key: Key, owner: string, repo: string, pr: int) {
    key.owner == owner && key.repo == repo && key.pr == pr
  }

  /** `c` can make a row of the pull request pending: it queues an event of it, or hands a row back. */
  predicate Readmits(w: World, c: Cmd, owner: string, repo: string, pr: int) {
    match c
    case Enqueue(job, _, _) => IsOf(job.key, owner, repo, pr)
    case Nack(g, _, _, _) => g in w.grants && w.grants[g] in w.jobs && IsOf(w.jobs[w.grants[g]].key, owner, repo, pr)
    case Reschedule(g, _) => g in w.grants && w.grants[g] in w.jobs && IsOf(w.jobs[w.grants[g]].key, owner, repo, pr)
    case _ => false
  }

  /** Of the pull request `t` has no rows but some of those `was` had leased, and they still are. */
  predicate OnlyLeased(was: Table, t: Table, owner: string, repo: string, pr: int) {
    forall x :: x in t && IsOf(t[x].key, owner, repo, pr) ==>
      t[x].leasedUntil.Some? && x in was && IsOf(was[x].key, owner, repo, pr) && was[x].leasedUntil.Some?
  }

  lemma WorkersStayClosed(was: Table, w: World, k: nat, c: Cmd, owner: string, repo: string, pr: int)
    requires OnlyLeased(was, w.jobs, owner, repo, pr) && !Readmits(w, c, owner, repo, pr)
    requires c.Ack? || c.Nack? || c.Reschedule? || c.Lease?
    ensures OnlyLeased(was, Step(w, k, c).jobs, owner, repo, pr)
  {
  }

  lemma EventsStayClosed(was: Table, w: World, k: nat, c: Cmd, owner: string, repo: string, pr: int)
    requires OnlyLeased(was, w.jobs, owner, repo, pr) && !Readmits(w, c, owner, repo, pr)
    requires c.Enqueue? || c.Close? || c.SetExperiment? || c.SetProgress?
    ensures OnlyLeased(was, Step(w, k, c).jobs, owner, repo, pr)
  {
  }

  lemma StepStaysClosed(was: Table, w: World, k: nat, c: Cmd, owner: string, repo: string, pr: int)
    requires OnlyLeased(was, w.jobs, owner, repo, pr) && !Readmits(w, c, owner, repo, pr)
    ensures OnlyLeased(was, Step(w, k, c).jobs, owner, repo, pr)
  {
    if c.Ack? || c.Nack? || c.Reschedule? || c.Lease? {
      WorkersStayClosed(was, w, k, c, owner, repo, pr);
    } else {
      EventsStayClosed(was, w, k, c, owner, repo, pr);
    }
  }

  lemma CloseCloses(w: World, k: nat, c: Cmd, owner: string, repo: string, pr: int)
    requires c == Close(owner, repo, pr)
    ensures OnlyLeased(w.jobs, Step(w, k, c).jobs, owner, repo, pr)
  {
  }

  /** Once a pull request is closed no row of it is pending, and none is there that was not leased at
      the close, until an event of it is queued or a leased row of it is handed back. */
  lemma {:induction false} ClosedStaysClosed(
      cmds: seq<Cmd>, ws: seq<World>, i: nat, j: nat, owner: string, repo: string, pr: int)
    requires IsRun(cmds, ws, j) && i < j && cmds[i] == Close(owner, repo, pr)
    requires forall m :: i < m < j ==> !Readmits(ws[m], cmds[m], owner, repo, pr)
    ensures OnlyLeased(ws[i].jobs, ws[j].jobs, owner, repo, pr)
    decreases j
  {
    RunStep(cmds, ws, j, j - 1);
    if j > i + 1 {
      ClosedStaysClosed(cmds, ws, i, j - 1, owner, repo, pr);
      StepStaysClosed(ws[i].jobs, ws[j - 1], j - 1, cmds[j - 1], owner, repo, pr);
    } else {
      CloseCloses(ws[i], i, cmds[i], owner, repo, pr);
    }
  }

  // ---- no starvation ----

  /** The pending rows leased before `r`. */
  function Ahead(t: Table, r: nat): set<nat> {
    set x | x in t && x != r && t[x].Pending() && r in t && Before(t, x, r)
  }

  /** A command at a time from `due` on: what it puts in the queue runs no sooner, or later if the row is
      an older one handed back, and no lease has expired when it leases. */
  predicate Past(w: World, c: Cmd, due: int) {
    match c
    case Lease(now, _) =>
      now >= due && forall x :: x in w.jobs && !w.jobs[x].Pending() ==> w.jobs[x].leasedUntil.value > now
    case Nack(_, now, _, backoff) => now > due && forall d :: d in backoff ==> d >= 0
    case Reschedule(_, runAfter) => runAfter > due
    case Enqueue(_, _, runAfter) => runAfter >= due
    case _ => true
  }

  /** A step past the time `r` fell due lets no row in ahead of it, and a lease takes one out. */
  lemma StepShortensQueue(w: World, k: nat, c: Cmd, r: nat)
    requires r in w.jobs && w.jobs[r].Pending() && (forall x :: x in w.jobs ==> x < w.nextId)
    requires Past(w, c, w.jobs[r].runAfter)
    requires var t := Step(w, k, c).jobs; r in t && t[r].Pending() && t[r].runAfter == w.jobs[r].runAfter
    ensures Ahead(Step(w, k, c).jobs, r) <= Ahead(w.jobs, r)
    ensures c.Lease? ==> Ahead(Step(w, k, c).jobs, r) < Ahead(w.jobs, r)
  {
    var t := Step(w, k, c).jobs;
    forall x | x in Ahead(t, r) ensures x in Ahead(w.jobs, r) {
    }
    if c.Lease? {
      PickOfADueRow(w.jobs, c.now, r);
      var id := Pick(w.jobs, c.now).value;
      assert id != r && id in Ahead(w.jobs, r);
      assert id !in Ahead(t, r);
    }
  }

  function Leases(cmds: seq<Cmd>, i: nat, j: nat): nat
    requires i <= j <= |cmds|
    decreases j
  {
    if i == j then 0 else Leases(cmds, i, j - 1) + (if cmds[j - 1].Lease? then 1 else 0)
  }

  lemma StrictSubsetIsSmaller(a: set<nat>, b: set<nat>)
    requires a <= b
    ensures |a| <= |b| && (a < b ==> |a| < |b|)
  {
    assert b == a + (b - a);
    assert |b| == |a| + |b - a|;
  }

  /** Row `r` is pending in `w`, due at `due`. */
  predicate Waits(w: World, r: nat, due: int) {
    r in w.jobs && w.jobs[r].Pending() && w.jobs[r].runAfter == due
  }

  /** From step `i` to step `j` row `r` stays pending, with no event merged into it, past its time. */
  predicate WaitsThrough(cmds: seq<Cmd>, ws: seq<World>, i: nat, j: nat, r: nat, due: int)
    requires i <= j <= |cmds| && |ws| == |cmds| + 1
    decreases j
  {
    Waits(ws[j], r, due) && (i < j ==> Past(ws[j - 1], cmds[j - 1], due) && WaitsThrough(cmds, ws, i, j - 1, r, due))
  }

  lemma QueueShortens(cmds: seq<Cmd>, ws: seq<World>, k: nat, r: nat, due: int)
    requires k < |cmds| && IsRun(cmds, ws, k + 1)
    requires Waits(ws[k], r, due) && Waits(ws[k + 1], r, due) && Past(ws[k], cmds[k], due)
    ensures |Ahead(ws[k + 1].jobs, r)| + (if cmds[k].Lease? then 1 else 0) <= |Ahead(ws[k].jobs, r)|
  {
    RunStep(cmds, ws, k + 1, k);
    AlwaysTidy(cmds, ws, k);
    StepShortensQueue(ws[k], k, cmds[k], r);
    StrictSubsetIsSmaller(Ahead(ws[k + 1].jobs, r), Ahead(ws[k].jobs, r));
  }

  /** A row past due waits for at most as many polls as there were rows ahead of it. */
  lemma {:induction false} NoStarvation(cmds: seq<Cmd>, ws: seq<World>, i: nat, j: nat, r: nat, due: int)
    requires IsRun(cmds, ws, j) && i <= j && WaitsThrough(cmds, ws, i, j, r, due)
    ensures Leases(cmds, i, j) + |Ahead(ws[j].jobs, r)| <= |Ahead(ws[i].jobs, r)|
    decreases j
  {
    if i < j {
      QueueShortens(cmds, ws, j - 1, r, due);
      NoStarvation(cmds, ws, i, j - 1, r, due);
    }
  }
}
