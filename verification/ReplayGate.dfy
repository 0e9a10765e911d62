/** The replay gate of src/webhook/server.rs and src/storage/deliveries.rs: a signed body is acted
    on once, by its age and by a claim on its hash, whatever copies of it arrive.

    Two parts. `DeliveryStore` and `Webhook` are the code, step by step. Below them, runs of any
    number of handlers, interleaved: a handler reads the clock first and its claim reaches the
    store later, so claims can arrive out of the order of their readings. */
module ReplayGate {
  import opened Options
  import opened JobQueue

  const DAY: int := 24 * 60 * 60
  const RETENTION: int := 7 * DAY
  const STALE_AFTER: int := RETENTION - DAY

  type Hash = string
  type Seen = map<Hash, int>

  // ---- the table ----

  function Pruned(seen: Seen, before: int): Seen {
    map h | h in seen && seen[h] >= before :: seen[h]
  }

  function Claimed(seen: Seen, h: Hash, now: int): Seen {
    var kept := Pruned(seen, now - RETENTION);
    if h in kept then kept else kept[h := now]
  }

  function Forgotten(seen: Seen, h: Hash): Seen {
    map x | x in seen && x != h :: seen[x]
  }

  /** Letting go of a body undoes its fresh claim: what is left is what the claim found, pruned, and the
      body's next claim, whenever it comes, is fresh again. */
  lemma ReleaseUndoesClaim(seen: Seen, h: Hash, now: int, next: int)
    requires h !in Pruned(seen, now - RETENTION)
    ensures h in Claimed(seen, h, now) && Forgotten(Claimed(seen, h, now), h) == Pruned(seen, now - RETENTION)
    ensures h !in Pruned(Forgotten(Claimed(seen, h, now), h), next - RETENTION)
  {
    assert Forgotten(Claimed(seen, h, now), h).Keys == Pruned(seen, now - RETENTION).Keys;
  }

  class DeliveryStore {
    var seen: Seen

    constructor ()
      ensures seen == map[]
    {
      seen := map[];
    }

    /** Record the body hash unless it is remembered from within the retention. */
    method ClaimDelivery(h: Hash, now: int) returns (isNew: bool)
      modifies this
      ensures seen == Claimed(old(seen), h, now)
      ensures isNew <==> h !in old(seen) || old(seen)[h] < now - 604_800
      // What is a week old or younger is kept as it was, and the body is remembered from now if it was not.
      ensures forall x :: x in seen <==> x == h || (x in old(seen) && old(seen)[x] >= now - 604_800)
      ensures forall x :: x in seen ==> seen[x] == if x == h && isNew then now else old(seen)[x]
    {
      seen := Pruned(seen, now - RETENTION);
      isNew := h !in seen;
      if isNew {
        seen := seen[h := now];
      }
    }

    method ReleaseDelivery(h: Hash)
      modifies this
      ensures seen == Forgotten(old(seen), h)
      ensures forall x :: x in seen <==> x in old(seen) && x != h
      ensures forall x :: x in seen ==> seen[x] == old(seen)[x]
    {
      seen := Forgotten(seen, h);
    }
  }

  // ---- one delivery ----

  datatype Event =
    | PullRequest(action: string, owner: string, repo: string, pr: int, updatedAt: Option<int>)
    | Comment(action: string, onPullRequest: bool, addressed: bool, command: string,
              owner: string, repo: string, pr: int, author: string, sender: string, createdAt: Option<int>)
    | Ignored

  datatype Delivery = Delivery(signed: bool, parsed: Option<Event>, hash: Hash, id: string)

  datatype Gates = Gates(allowsRepo: (string, string) -> bool, allowsCommander: string -> bool, debounce: nat)

  datatype Status = BadSignature | BadPayload | NotACommander | NotConfigured | NotActionable
    | Stale | ClaimFailed | AlreadyAccepted | EnqueueFailed | Accepted

  predicate Actionable(action: string) {
    action == "opened" || action == "synchronize" || action == "reopened" || action == "ready_for_review"
  }

  predicate AsksBarry(e: Event) {
    e.Comment? && e.action == "created" && e.onPullRequest && e.addressed
  }

  predicate ActsOn(e: Event) {
    match e
    case PullRequest(action, _, _, _, _) => Actionable(action) || action == "closed"
    case Comment(_, _, _, _, _, _, _, _, _, _) => AsksBarry(e)
    case Ignored => false
  }

  function EventTime(e: Event): Option<int> {
    match e
    case PullRequest(_, _, _, _, updatedAt) => updatedAt
    case Comment(_, _, _, _, _, _, _, _, _, createdAt) => createdAt
    case Ignored => None
  }

  predicate Fresh(e: Event, now: int) {
    EventTime(e).Some? && now - EventTime(e).value <= STALE_AFTER
  }

  function JobOf(e: Event, id: string): NewJob
    requires ActsOn(e)
  {
    match e
    case PullRequest(action, owner, repo, pr, _) =>
      NewJob(Key(owner, repo, pr, "pull_request." + action), id, None)
    case Comment(_, _, _, command, owner, repo, pr, _, sender, _) =>
      NewJob(Key(owner, repo, pr, "issue_comment." + command), id, Some(sender))
  }

  function RunAfter(e: Event, now: int, debounce: nat): int {
    if e.PullRequest? && e.action == "synchronize" then now + debounce else now
  }

  /** The first gate a signed, readable delivery fails, told by the event: the repository, unless a
      comment addresses barry, whose author counts instead; whether the event does anything; and its
      age, which must be known and at most six days. */
  function GateOf(g: Gates, e: Event, now: int): Option<Status> {
    match e
    case Ignored => Some(NotActionable)
    case PullRequest(action, owner, repo, _, at) =>
      if !g.allowsRepo(owner, repo) then Some(NotConfigured)
      else if action !in ["opened", "synchronize", "reopened", "ready_for_review", "closed"] then Some(NotActionable)
      else if at.None? || now - at.value > 518_400 then Some(Stale)
      else None
    case Comment(action, onPullRequest, addressed, _, owner, repo, _, author, _, at) =>
      if !(action == "created" && onPullRequest && addressed) then
        Some(if g.allowsRepo(owner, repo) then NotActionable else NotConfigured)
      else if !g.allowsCommander(author) then Some(NotACommander)
      else if at.None? || now - at.value > 518_400 then Some(Stale)
      else None
  }

  /** `row` holds the job that event `e`, delivered as `id` at `now`, asks for. It runs when asked, or when
      `was`, the row it was merged into, was to run, whichever is later. */
  predicate HoldsJob(row: Row, was: Option<Row>, e: Event, id: string, now: int, debounce: nat) {
    row.Pending() && row.delivery == id &&
    match e
    case PullRequest(action, owner, repo, pr, _) =>
      && row.key == Key(owner, repo, pr, "pull_request." + action) && row.actor == None
      && row.runAfter == NoSooner(was, if action == "synchronize" then now + debounce else now)
    case Comment(_, _, _, command, owner, repo, pr, _, sender, _) =>
      && row.key == Key(owner, repo, pr, "issue_comment." + command) && row.actor == Some(sender)
      && row.runAfter == NoSooner(was, now)
    case Ignored => false
  }

  function NoSooner(was: Option<Row>, at: int): int {
    if was.Some? && was.value.runAfter > at then was.value.runAfter else at
  }

  function At(t: Table, x: nat): Option<Row> {
    if x in t then Some(t[x]) else None
  }

  /** The gates an event passes, in their order. */
  method CheckGates(g: Gates, e: Event, now: int) returns (refused: Option<Status>)
    ensures refused == GateOf(g, e, now)
  {
    var onDemand := false;
    if AsksBarry(e) {
      if !g.allowsCommander(e.author) {
        return Some(NotACommander);
      }
      onDemand := !g.allowsRepo(e.owner, e.repo);
    }
    if !onDemand && !e.Ignored? && !g.allowsRepo(e.owner, e.repo) {
      return Some(NotConfigured);
    }
    if !ActsOn(e) {
      return Some(NotActionable);
    }
    if !Fresh(e, now) {
      return Some(Stale);
    }
    return None;
  }

  /** What becomes of an event past the gates. */
  method ClaimAndEnqueue(seen: DeliveryStore, jobs: JobStore, hash: Hash, job: NewJob, runAfter: int, now: int,
                         claimFails: bool, enqueueFails: bool, releaseFails: bool) returns (status: Status)
    requires jobs.Valid()
    modifies seen, jobs
    ensures jobs.Valid()
    ensures claimFails ==> status == ClaimFailed && seen.seen == old(seen.seen)
    ensures !claimFails ==>
      var remembered := hash in old(seen.seen) && old(seen.seen)[hash] >= now - 604_800;
      status == if remembered then AlreadyAccepted else if enqueueFails then EnqueueFailed else Accepted
    ensures status != Accepted ==> jobs.jobs == old(jobs.jobs)
    ensures status == Accepted || status == AlreadyAccepted ==>
      hash in seen.seen && seen.seen == Claimed(old(seen.seen), hash, now)
    ensures status == Accepted ==>
      exists x :: x in jobs.jobs && jobs.jobs[x].Pending() && jobs.jobs[x].key == job.key
        && jobs.jobs[x].delivery == job.delivery && jobs.jobs[x].actor == job.actor
        && jobs.jobs[x].runAfter == NoSooner(At(old(jobs.jobs), x), runAfter)
    ensures status == EnqueueFailed ==>
      var claimed := Claimed(old(seen.seen), hash, now);
      seen.seen == if releaseFails then claimed else Forgotten(claimed, hash)
  {
    if claimFails {
      return ClaimFailed;
    }
    var isNew := seen.ClaimDelivery(hash, now);
    if !isNew {
      return AlreadyAccepted;
    }
    if enqueueFails {
      if !releaseFails {
        seen.ReleaseDelivery(hash);
      }
      return EnqueueFailed;
    }
    jobs.Enqueue(job, now, runAfter);
    ghost var row := if exists x :: x in old(jobs.jobs) && Waiting(old(jobs.jobs)[x], job.key)
                     then var x :| x in old(jobs.jobs) && Waiting(old(jobs.jobs)[x], job.key); x
                     else old(jobs.nextId);
    assert row in jobs.jobs && Waiting(jobs.jobs[row], job.key);
    return Accepted;
  }

  /** The handler, at the clock reading `now`; the flags say which of its store calls fail. */
  method Webhook(g: Gates, seen: DeliveryStore, jobs: JobStore, d: Delivery, now: int,
                 claimFails: bool, enqueueFails: bool, releaseFails: bool) returns (status: Status)
    requires jobs.Valid()
    modifies seen, jobs
    ensures jobs.Valid()
    // What is refused at a gate touches nothing.
    ensures !d.signed ==> status == BadSignature
    ensures d.signed && d.parsed.None? ==> status == BadPayload
    ensures d.signed && d.parsed.Some? && GateOf(g, d.parsed.value, now).Some? ==>
      status == GateOf(g, d.parsed.value, now).value
    ensures !PastGates(g, d, now) || claimFails ==> seen.seen == old(seen.seen) && jobs.jobs == old(jobs.jobs)
    // What passes is acted on if its body is not remembered from the week before, and not again.
    ensures PastGates(g, d, now) ==>
      var remembered := d.hash in old(seen.seen) && old(seen.seen)[d.hash] >= now - 604_800;
      status == if claimFails then ClaimFailed else if remembered then AlreadyAccepted
                else if enqueueFails then EnqueueFailed else Accepted
    ensures status != Accepted ==> jobs.jobs == old(jobs.jobs)
    ensures status == Accepted || status == AlreadyAccepted ==>
      d.hash in seen.seen && seen.seen == Claimed(old(seen.seen), d.hash, now)
    ensures status == Accepted ==>
      exists x :: x in jobs.jobs
        && HoldsJob(jobs.jobs[x], At(old(jobs.jobs), x), d.parsed.value, d.id, now, g.debounce)
    // A failed enqueue leaves the body claimable.
    ensures status == EnqueueFailed ==>
      var claimed := Claimed(old(seen.seen), d.hash, now);
      seen.seen == if releaseFails then claimed else Forgotten(claimed, d.hash)
    ensures MayTurn(old(seen.seen), d.hash, now, seen.seen)
  {
    if !d.signed {
      return BadSignature;
    }
    if d.parsed.None? {
      return BadPayload;
    }
    var e := d.parsed.value;
    var refused := CheckGates(g, e, now);
    if refused.Some? {
      return refused.value;
    }
    var job, runAfter := JobOf(e, d.id), RunAfter(e, now, g.debounce);
    status := ClaimAndEnqueue(seen, jobs, d.hash, job, runAfter, now, claimFails, enqueueFails, releaseFails);
    if status == Accepted {
      ghost var x :| x in jobs.jobs && jobs.jobs[x].Pending() && jobs.jobs[x].key == job.key
        && jobs.jobs[x].delivery == job.delivery && jobs.jobs[x].actor == job.actor
        && jobs.jobs[x].runAfter == NoSooner(At(old(jobs.jobs), x), runAfter);
      assert HoldsJob(jobs.jobs[x], At(old(jobs.jobs), x), e, d.id, now, g.debounce);
    }
  }

  predicate PastGates(g: Gates, d: Delivery, now: int) {
    d.signed && d.parsed.Some? && GateOf(g, d.parsed.value, now).None?
  }

  // ---- one handler after another ----

  /** A delivery, the clock when it is handled, and which of its store calls fail. */
  datatype Call = Call(d: Delivery, now: int, claimFails: bool, enqueueFails: bool, releaseFails: bool)

  /** Deliveries whose bodies say when their event was, by a clock that does not run back. */
  ghost predicate InTurn(calls: seq<Call>, when: Hash -> int) {
    && (forall i, j :: 0 <= i <= j < |calls| ==> calls[i].now <= calls[j].now)
    && forall i :: 0 <= i < |calls| && calls[i].d.parsed.Some? && EventTime(calls[i].d.parsed.value).Some? ==>
        EventTime(calls[i].d.parsed.value).value == when(calls[i].d.hash)
  }

  /** The body accepted by `c` is remembered from then or later, or `now` is more than a week on. */
  predicate Remembered(seen: Seen, c: Call, now: int) {
    (c.d.hash in seen && seen[c.d.hash] >= c.now) || now - 604_800 > c.now
  }

  /** What a call may do to the table: nothing, claim the body, or claim it afresh and let it go. */
  predicate MayTurn(seen: Seen, h: Hash, now: int, after: Seen) {
    || after == seen
    || after == Claimed(seen, h, now)
    || (after == Forgotten(Claimed(seen, h, now), h) && (h !in seen || seen[h] < now - 604_800))
  }

  /** A call keeps what is remembered, except what it finds more than a week old. */
  lemma CallRemembers(seen: Seen, h: Hash, now: int, after: Seen, c: Call, clock: int)
    requires Remembered(seen, c, clock) && clock <= now && c.now <= now && MayTurn(seen, h, now, after)
    ensures Remembered(after, c, now)
  {
  }

  /** A body whose event was no more than a day ahead of the clock that accepted it is remembered for
      as long as it is not stale. */
  lemma RememberedWhileFresh(g: Gates, seen: Seen, c: Call, clock: int, again: Call, e: Event)
    requires Remembered(seen, c, clock) && clock <= again.now && c.d.hash == again.d.hash
    requires GateOf(g, e, again.now).None? && EventTime(e).value <= c.now + 86_400
    ensures again.d.hash in seen && seen[again.d.hash] >= again.now - 604_800
  {
  }

  /** `calls[j]` is not accepted if `calls[i]` was, of the same body, no more than a day ahead. */
  predicate Once(calls: seq<Call>, statuses: seq<Status>, when: Hash -> int, i: nat, j: nat)
    requires i < |statuses| <= |calls| && j < |statuses|
  {
    statuses[i] == Accepted && calls[i].d.hash == calls[j].d.hash && when(calls[i].d.hash) <= calls[i].now + 86_400
    ==> statuses[j] != Accepted
  }

  /** What is accepted so far is accepted once, and remembered. */
  ghost predicate AcceptedOnce(calls: seq<Call>, statuses: seq<Status>, when: Hash -> int, seen: Seen) {
    |statuses| <= |calls|
    && (forall i, j :: 0 <= i < j < |statuses| ==> Once(calls, statuses, when, i, j))
    && forall i :: 0 <= i < |statuses| && statuses[i] == Accepted ==>
        Remembered(seen, calls[i], calls[|statuses| - 1].now)
  }

  lemma OneMoreCall(g: Gates, calls: seq<Call>, statuses: seq<Status>, when: Hash -> int, seen: Seen,
                    status: Status, after: Seen)
    requires InTurn(calls, when) && AcceptedOnce(calls, statuses, when, seen) && |statuses| < |calls|
    requires var c := calls[|statuses|];
      && MayTurn(seen, c.d.hash, c.now, after)
      && (status == Accepted ==> c.d.hash in after && after[c.d.hash] >= c.now)
      && (status == Accepted ==> c.d.parsed.Some? && GateOf(g, c.d.parsed.value, c.now).None?)
      && (status == Accepted ==> c.d.hash !in seen || seen[c.d.hash] < c.now - 604_800)
    ensures AcceptedOnce(calls, statuses + [status], when, after)
  {
    var n, all := |statuses|, statuses + [status];
    var c, clock := calls[n], if n == 0 then calls[0].now else calls[n - 1].now;
    forall i, j | 0 <= i < j < |all| ensures Once(calls, all, when, i, j) {
      if j < n {
        assert Once(calls, statuses, when, i, j);
      } else if !Once(calls, all, when, i, n) {
        RememberedWhileFresh(g, seen, calls[i], clock, c, c.d.parsed.value);
      }
    }
    forall i | 0 <= i < |all| && all[i] == Accepted ensures Remembered(after, calls[i], c.now) {
      if i < n {
        CallRemembers(seen, c.d.hash, c.now, after, calls[i], clock);
      }
    }
  }

  /** Any deliveries, handled one after another: a body is accepted once, unless the event it tells of
      was more than a day ahead of the clock that accepted it. */
  method HandleAll(g: Gates, seen: DeliveryStore, jobs: JobStore, calls: seq<Call>, ghost when: Hash -> int)
    returns (statuses: seq<Status>)
    requires jobs.Valid() && InTurn(calls, when)
    modifies seen, jobs
    ensures jobs.Valid() && |statuses| == |calls|
    ensures forall i, j :: 0 <= i < j < |calls| ==> Once(calls, statuses, when, i, j)
  {
    statuses := [];
    for n := 0 to |calls|
      invariant jobs.Valid() && |statuses| == n && AcceptedOnce(calls, statuses, when, seen.seen)
    {
      var c, before := calls[n], seen.seen;
      var status := Webhook(g, seen, jobs, c.d, c.now, c.claimFails, c.enqueueFails, c.releaseFails);
      OneMoreCall(g, calls, statuses, when, before, status, seen.seen);
      statuses := statuses + [status];
    }
  }

  // ---- runs of many handlers ----

  /** A handler's claim reaches the store at `at`, from a clock reading that found it fresh; later
      the handler of claim `claim` queues a job, or fails to and lets the body go. */
  datatype Cmd =
    | Claim(hash: Hash, reading: int, at: int)
    | Queue(claim: nat)
    | Release(claim: nat, ok: bool)

  /** `owners` are the claims that were granted and not let go, `queued` those that queued a job. */
  datatype World = World(seen: Seen, owners: map<nat, Hash>, queued: set<nat>, clock: int)

  function Step(w: World, k: nat, c: Cmd): World {
    match c
    case Claim(h, reading, at) =>
      var granted := h !in Pruned(w.seen, reading - RETENTION);
      World(Claimed(w.seen, h, reading), if granted then w.owners[k := h] else w.owners, w.queued, at)
    case Queue(i) => w.(queued := w.queued + {i})
    case Release(i, ok) =>
      if i in w.owners then
        w.(owners := map x | x in w.owners && x != i :: w.owners[x],
           seen := if ok then Forgotten(w.seen, w.owners[i]) else w.seen)
      else w
  }

  /** The store carries out each command as `Step` does, and grants what it says. */
  method Execute(store: DeliveryStore, ghost w: World, ghost k: nat, c: Cmd, owners: map<nat, Hash>)
    returns (granted: bool)
    requires store.seen == w.seen && owners == w.owners && k !in w.owners
    modifies store
    ensures store.seen == Step(w, k, c).seen && (granted <==> k in Step(w, k, c).owners)
  {
    granted := false;
    match c
    case Claim(h, reading, _) => granted := store.ClaimDelivery(h, reading);
    case Queue(_) =>
    case Release(i, ok) =>
      if i in owners && ok {
        store.ReleaseDelivery(owners[i]);
      }
  }

  /** The store's clock does not run back, a claim arrives within `lag` of its reading, only fresh
      bodies are claimed, and a handler decides about its own claim, once. */
  predicate Allowed(w: World, c: Cmd, when: Hash -> int, lag: nat) {
    match c
    case Claim(h, reading, at) =>
      w.clock <= at && reading <= at <= reading + lag && reading - when(h) <= STALE_AFTER
    case Queue(i) => i in w.owners && i !in w.queued
    case Release(i, _) => i in w.owners && i !in w.queued
  }

  ghost predicate IsRun(cmds: seq<Cmd>, ws: seq<World>, when: Hash -> int, lag: nat, k: nat) {
    && |ws| == |cmds| + 1 && k <= |cmds|
    && if k == 0 then ws[0].seen == map[] && ws[0].owners == map[] && ws[0].queued == {}
       else IsRun(cmds, ws, when, lag, k - 1) && Allowed(ws[k - 1], cmds[k - 1], when, lag)
            && ws[k] == Step(ws[k - 1], k - 1, cmds[k - 1])
  }

  lemma {:induction false} RunStep(cmds: seq<Cmd>, ws: seq<World>, when: Hash -> int, lag: nat, n: nat, k: nat)
    requires IsRun(cmds, ws, when, lag, n) && k < n
    ensures IsRun(cmds, ws, when, lag, k) && Allowed(ws[k], cmds[k], when, lag) && ws[k + 1] == Step(ws[k], k, cmds[k])
    decreases n
  {
    if k < n - 1 {
      RunStep(cmds, ws, when, lag, n - 1, k);
    }
  }

  lemma {:induction false} ClockRunsOn(cmds: seq<Cmd>, ws: seq<World>, when: Hash -> int, lag: nat, j: nat, k: nat)
    requires j <= k && IsRun(cmds, ws, when, lag, k)
    ensures ws[j].clock <= ws[k].clock
    decreases k
  {
    if j < k {
      ClockRunsOn(cmds, ws, when, lag, j, k - 1);
    }
  }

  /** The handler of claim `i` queues a job at step `m`, or lets the body go there. */
  predicate Acts(cmds: seq<Cmd>, m: nat, i: nat)
    requires m < |cmds|
  {
    cmds[m] == Queue(i) || (cmds[m].Release? && cmds[m].claim == i)
  }

  /** That claim `i` is not of a body too far ahead matters if its handler queues a job, or lets the
      body go only once the claim may be pruned, and with it whatever claim has come since. */
  ghost predicate Matters(cmds: seq<Cmd>, ws: seq<World>, i: nat)
    requires |ws| == |cmds| + 1 && i < |cmds| && cmds[i].Claim?
  {
    exists m :: 0 <= m < |cmds| && Acts(cmds, m, i) && (cmds[m].Release? ==> ws[m].clock > cmds[i].reading + RETENTION)
  }

  /** Every claim of body `h` that matters is granted by a clock at most a day, less the lag, behind it. */
  ghost predicate NotFarAhead(cmds: seq<Cmd>, ws: seq<World>, when: Hash -> int, lag: nat, h: Hash)
    requires |ws| == |cmds| + 1
  {
    forall i :: 0 <= i < |cmds| && cmds[i].Claim? && cmds[i].hash == h && Matters(cmds, ws, i) ==>
      when(h) <= cmds[i].reading + DAY - lag
  }

  /** A granted claim is remembered, or was forgotten so late that every copy is stale. */
  predicate Guarded(cmds: seq<Cmd>, w: World, i: nat, h: Hash)
    requires i < |cmds| && cmds[i].Claim?
  {
    (h in w.seen && w.seen[h] == cmds[i].reading) || w.clock > cmds[i].reading + RETENTION
  }

  /** The handler of claim `i` has queued a job, or has yet to act. One that never acts does nothing. */
  ghost predicate Active(cmds: seq<Cmd>, w: World, k: nat, i: nat) {
    i in w.queued || exists m :: k <= m < |cmds| && Acts(cmds, m, i)
  }

  ghost predicate Owns(cmds: seq<Cmd>, w: World, k: nat, i: nat, h: Hash) {
    i in w.owners && w.owners[i] == h && Active(cmds, w, k, i)
  }

  ghost predicate AllGuarded(cmds: seq<Cmd>, w: World, k: nat, h: Hash) {
    forall i: nat :: Owns(cmds, w, k, i, h) ==>
      i < k <= |cmds| && cmds[i].Claim? && cmds[i].hash == h && Guarded(cmds, w, i, h)
  }

  ghost predicate OneOwner(cmds: seq<Cmd>, w: World, k: nat, h: Hash) {
    forall i: nat, j: nat :: Owns(cmds, w, k, i, h) && Owns(cmds, w, k, j, h) ==> i == j
  }

  predicate QueuedByOwners(cmds: seq<Cmd>, w: World, k: nat) {
    && (forall i :: i in w.owners ==> i < k)
    && (forall i :: i in w.queued ==> i in w.owners && CmdIn(cmds, Queue(i)))
  }

  ghost predicate Owned(cmds: seq<Cmd>, w: World, k: nat, h: Hash) {
    AllGuarded(cmds, w, k, h) && OneOwner(cmds, w, k, h) && QueuedByOwners(cmds, w, k)
  }

  predicate CmdIn(cmds: seq<Cmd>, c: Cmd) {
    exists m :: 0 <= m < |cmds| && cmds[m] == c
  }

  /** The handler of an active claim makes it matter, or acts while the claim is remembered. */
  lemma MattersOrActsInTime(cmds: seq<Cmd>, ws: seq<World>, when: Hash -> int, lag: nat, k: nat, i: nat)
    requires IsRun(cmds, ws, when, lag, |cmds|) && k < |cmds| && QueuedByOwners(cmds, ws[k], k)
    requires i < |cmds| && cmds[i].Claim? && cmds[k].Claim? && Active(cmds, ws[k], k, i)
    ensures Matters(cmds, ws, i) || ws[k + 1].clock <= cmds[i].reading + RETENTION
  {
    if i in ws[k].queued {
      var m :| 0 <= m < |cmds| && cmds[m] == Queue(i);
      assert Acts(cmds, m, i);
    } else {
      var m :| k <= m < |cmds| && Acts(cmds, m, i);
      RunTo(cmds, ws, when, lag, |cmds|, m);
      ClockRunsOn(cmds, ws, when, lag, k + 1, m);
    }
  }

  lemma RunTo(cmds: seq<Cmd>, ws: seq<World>, when: Hash -> int, lag: nat, n: nat, k: nat)
    requires IsRun(cmds, ws, when, lag, n) && k < n
    ensures IsRun(cmds, ws, when, lag, k)
  {
    RunStep(cmds, ws, when, lag, n, k);
  }

  /** While claim `i` is owned no other of its body is granted: the body would be stale. */
  lemma NoSecondGrant(cmds: seq<Cmd>, ws: seq<World>, when: Hash -> int, lag: nat, k: nat, h: Hash, i: nat)
    requires IsRun(cmds, ws, when, lag, |cmds|) && NotFarAhead(cmds, ws, when, lag, h)
    requires k < |cmds| && Owned(cmds, ws[k], k, h) && Owns(cmds, ws[k], k, i, h)
    requires cmds[k].Claim? && cmds[k].hash == h
    ensures h in Pruned(ws[k].seen, cmds[k].reading - RETENTION)
  {
    RunStep(cmds, ws, when, lag, |cmds|, k);
    MattersOrActsInTime(cmds, ws, when, lag, k, i);
    assert Guarded(cmds, ws[k], i, h) && ws[k + 1].clock == cmds[k].at;
  }

  lemma OwnsBefore(cmds: seq<Cmd>, w: World, k: nat, i: nat, h: Hash)
    requires k < |cmds| && i != k && Owns(cmds, Step(w, k, cmds[k]), k + 1, i, h)
    ensures Owns(cmds, w, k, i, h)
  {
    assert cmds[k] == Queue(i) ==> Acts(cmds, k, i);
  }

  /** A claim leaves a guarded one guarded: what it prunes is that old, and its clock is that late. */
  lemma ClaimKeepsGuard(cmds: seq<Cmd>, w: World, k: nat, when: Hash -> int, lag: nat, i: nat, h: Hash)
    requires k < |cmds| && cmds[k].Claim? && Allowed(w, cmds[k], when, lag)
    requires i < |cmds| && cmds[i].Claim? && Guarded(cmds, w, i, h)
    ensures Guarded(cmds, Step(w, k, cmds[k]), i, h)
  {
  }

  /** An owner after a claim is the claim's own, alone, or one from before. */
  lemma OwnerAfterClaim(cmds: seq<Cmd>, ws: seq<World>, k: nat, when: Hash -> int, lag: nat, h: Hash, i: nat)
    requires IsRun(cmds, ws, when, lag, |cmds|) && NotFarAhead(cmds, ws, when, lag, h)
    requires k < |cmds| && Owned(cmds, ws[k], k, h) && cmds[k].Claim? && Owns(cmds, ws[k + 1], k + 1, i, h)
    ensures i <= k && cmds[i].Claim? && cmds[i].hash == h && Guarded(cmds, ws[k + 1], i, h)
    ensures i != k ==> Owns(cmds, ws[k], k, i, h) && !Owns(cmds, ws[k + 1], k + 1, k, h)
  {
    RunStep(cmds, ws, when, lag, |cmds|, k);
    if i != k {
      OwnsBefore(cmds, ws[k], k, i, h);
      ClaimKeepsGuard(cmds, ws[k], k, when, lag, i, h);
      if cmds[k].hash == h {
        NoSecondGrant(cmds, ws, when, lag, k, h, i);
      }
    }
  }

  lemma ClaimKeepsGuarded(cmds: seq<Cmd>, ws: seq<World>, k: nat, when: Hash -> int, lag: nat, h: Hash)
    requires IsRun(cmds, ws, when, lag, |cmds|) && NotFarAhead(cmds, ws, when, lag, h)
    requires k < |cmds| && Owned(cmds, ws[k], k, h) && cmds[k].Claim?
    ensures AllGuarded(cmds, ws[k + 1], k + 1, h)
  {
    var next, n := ws[k + 1], k + 1;
    forall i: nat | Owns(cmds, next, n, i, h)
      ensures i < n && cmds[i].Claim? && cmds[i].hash == h && Guarded(cmds, next, i, h)
    {
      OwnerAfterClaim(cmds, ws, k, when, lag, h, i);
    }
  }

  lemma ClaimKeepsOneOwner(cmds: seq<Cmd>, ws: seq<World>, k: nat, when: Hash -> int, lag: nat, h: Hash)
    requires IsRun(cmds, ws, when, lag, |cmds|) && NotFarAhead(cmds, ws, when, lag, h)
    requires k < |cmds| && Owned(cmds, ws[k], k, h) && cmds[k].Claim?
    ensures OneOwner(cmds, ws[k + 1], k + 1, h)
  {
    var next, n := ws[k + 1], k + 1;
    forall i: nat, j: nat | Owns(cmds, next, n, i, h) && Owns(cmds, next, n, j, h) ensures i == j {
      OwnerAfterClaim(cmds, ws, k, when, lag, h, i);
      OwnerAfterClaim(cmds, ws, k, when, lag, h, j);
    }
  }

  lemma StepKeepsQueued(cmds: seq<Cmd>, w: World, k: nat, when: Hash -> int, lag: nat)
    requires k < |cmds| && QueuedByOwners(cmds, w, k) && Allowed(w, cmds[k], when, lag)
    ensures QueuedByOwners(cmds, Step(w, k, cmds[k]), k + 1)
  {
    assert cmds[k].Queue? ==> CmdIn(cmds, Queue(cmds[k].claim));
  }

  /** An owner after a handler has acted is one from before, and its guard is not what was let go. */
  lemma OwnerAfterAct(cmds: seq<Cmd>, w: World, k: nat, when: Hash -> int, lag: nat, h: Hash, i: nat)
    requires k < |cmds| && Owned(cmds, w, k, h) && Allowed(w, cmds[k], when, lag) && !cmds[k].Claim?
    requires Owns(cmds, Step(w, k, cmds[k]), k + 1, i, h)
    ensures Owns(cmds, w, k, i, h) && Guarded(cmds, Step(w, k, cmds[k]), i, h)
  {
    var claim := cmds[k].claim;
    assert Acts(cmds, k, claim);
    assert w.owners[claim] == h ==> Owns(cmds, w, k, claim, h);
    if i != claim {
      assert Owns(cmds, w, k, i, h);
      assert w.owners[claim] != h;
    }
  }

  lemma ActKeepsOwned(cmds: seq<Cmd>, w: World, k: nat, when: Hash -> int, lag: nat, h: Hash)
    requires k < |cmds| && Owned(cmds, w, k, h) && Allowed(w, cmds[k], when, lag) && !cmds[k].Claim?
    ensures Owned(cmds, Step(w, k, cmds[k]), k + 1, h)
  {
    var next, n := Step(w, k, cmds[k]), k + 1;
    StepKeepsQueued(cmds, w, k, when, lag);
    forall i: nat | Owns(cmds, next, n, i, h) ensures Owns(cmds, w, k, i, h) && Guarded(cmds, next, i, h) {
      OwnerAfterAct(cmds, w, k, when, lag, h, i);
    }
  }

  lemma StepKeepsOwned(cmds: seq<Cmd>, ws: seq<World>, k: nat, when: Hash -> int, lag: nat, h: Hash)
    requires IsRun(cmds, ws, when, lag, |cmds|) && NotFarAhead(cmds, ws, when, lag, h)
    requires k < |cmds| && Owned(cmds, ws[k], k, h)
    ensures Owned(cmds, ws[k + 1], k + 1, h)
  {
    RunStep(cmds, ws, when, lag, |cmds|, k);
    if cmds[k].Claim? {
      ClaimKeepsGuarded(cmds, ws, k, when, lag, h);
      ClaimKeepsOneOwner(cmds, ws, k, when, lag, h);
      StepKeepsQueued(cmds, ws[k], k, when, lag);
    } else {
      ActKeepsOwned(cmds, ws[k], k, when, lag, h);
    }
  }

  /** The claims of body `h` that queued a job. */
  function QueuedOf(w: World, h: Hash): set<nat> {
    set i | i in w.queued && i in w.owners && w.owners[i] == h
  }

  lemma {:induction false} AlwaysOwned(cmds: seq<Cmd>, ws: seq<World>, when: Hash -> int, lag: nat, k: nat, h: Hash)
    requires IsRun(cmds, ws, when, lag, |cmds|) && NotFarAhead(cmds, ws, when, lag, h) && k <= |cmds|
    ensures Owned(cmds, ws[k], k, h)
  {
    if k > 0 {
      AlwaysOwned(cmds, ws, when, lag, k - 1, h);
      StepKeepsOwned(cmds, ws, k - 1, when, lag, h);
    } else if |cmds| > 0 {
      RunStep(cmds, ws, when, lag, |cmds|, 0);
    }
  }

  /** Over any interleaving of claims, prunes, failures and releases, a body not too far ahead of
      the clocks that accept it is queued at most once, however long ago its claim was pruned. */
  lemma QueuedAtMostOnce(cmds: seq<Cmd>, ws: seq<World>, when: Hash -> int, lag: nat, h: Hash)
    requires IsRun(cmds, ws, when, lag, |cmds|) && NotFarAhead(cmds, ws, when, lag, h)
    ensures |QueuedOf(ws[|cmds|], h)| <= 1
  {
    AlwaysOwned(cmds, ws, when, lag, |cmds|, h);
    var q := QueuedOf(ws[|cmds|], h);
    if q != {} {
      var i :| i in q;
      assert Owns(cmds, ws[|cmds|], |cmds|, i, h);
      forall j | j in q ensures j == i {
        assert Owns(cmds, ws[|cmds|], |cmds|, j, h);
      }
      assert q == {i};
    }
  }

  // ---- the bound is exact ----

  /** A body accepted, a claim of another that prunes it, and a copy of it as soon as it can come. */
  function TwiceCmds(h: Hash, other: Hash, now: int, lag: nat): seq<Cmd> {
    var late := now + RETENTION + 1;
    [Claim(h, now, now), Queue(0), Claim(other, late, late), Claim(h, late - lag, late), Queue(3)]
  }

  function TwiceWorlds(h: Hash, other: Hash, now: int, lag: nat): seq<World> {
    var late := now + RETENTION + 1;
    var w1 := World(map[h := now], map[0 := h], {}, now);
    var w4 := World(map[other := late, h := late - lag], map[0 := h, 2 := other, 3 := h], {0}, late);
    [World(map[], map[], {}, now), w1, w1.(queued := {0}),
     World(map[other := late], map[0 := h, 2 := other], {0}, late), w4, w4.(queued := {0, 3})]
  }

  lemma TwiceSteps(h: Hash, other: Hash, now: int, lag: nat, k: nat)
    requires h != other && k < 5
    ensures var cmds, ws := TwiceCmds(h, other, now, lag), TwiceWorlds(h, other, now, lag);
      ws[k + 1] == Step(ws[k], k, cmds[k])
  {
    var late, w := now + RETENTION + 1, TwiceWorlds(h, other, now, lag)[k];
    if k == 2 {
      assert Pruned(w.seen, late - RETENTION) == map[];
    } else if k == 3 {
      assert Pruned(w.seen, late - lag - RETENTION) == w.seen;
    }
  }

  /** Any body further ahead of the clock that accepts it can be queued twice, by a copy sent once
      another claim has pruned it. */
  lemma FurtherAheadIsQueuedTwice(h: Hash, other: Hash, now: int, ahead: int, lag: nat)
    returns (cmds: seq<Cmd>, ws: seq<World>, when: Hash -> int)
    requires h != other && ahead > DAY - lag && -ahead <= STALE_AFTER
    ensures when(h) == now + ahead && |cmds| == 5 && cmds[0] == Claim(h, now, now)
    ensures IsRun(cmds, ws, when, lag, 5) && QueuedOf(ws[5], h) == {0, 3}
  {
    when := x => if x == h then now + ahead else now + RETENTION + 1;
    cmds, ws := TwiceCmds(h, other, now, lag), TwiceWorlds(h, other, now, lag);
    for k := 0 to 5
      invariant IsRun(cmds, ws, when, lag, k)
    {
      TwiceSteps(h, other, now, lag, k);
    }
  }
}
