/** A review on the rack for a dispatcher job, src/rack/mod.rs: one experiment, submitted or resumed,
    polled until it is over, and not left running behind a caller that has stopped waiting.

    The review's future can be dropped during any await. `Env` says how each await of one call ends:
    how long it takes, what the rack or the store replies, during which await the caller drops the
    future, and from which await on barry is shutting down. */
module RackReview {
  import opened Options

  type Id = nat

  datatype Progress = Waiting | Succeeded | Ended(state: string)

  function Classify(state: string): Progress {
    if state == "pending" || state == "running" then Waiting
    else if state == "success" then Succeeded
    else Ended(state)
  }

  /** Any job state but `unscheduled` says that the rack has given the experiment a host. */
  predicate HasStarted(jobs: seq<string>) {
    exists job :: job in jobs && job != "unscheduled"
  }

  datatype Poll = PollFailed | State(state: string, jobs: seq<string>)

  /** A submission whose reply is lost has still made an experiment. */
  datatype Submission = Accepted | Refused | ReplyLost

  datatype Artifact = Artifact(id: nat, name: string)

  datatype Env = Env(
    took: nat -> nat, dropAt: Option<nat>, stopAt: Option<nat>,
    stored: nat -> bool, submission: nat -> Submission, poll: nat -> Poll,
    listing: nat -> Option<seq<Artifact>>, fetched: nat -> bool, content: nat -> string, readable: string -> bool,
    // Whether the rack stops the experiment, if await n, or the guard after it, is to ask it to. The
    // rack may refuse, and the request may fail or not be sent.
    stops: nat -> bool)

  ghost predicate Timely(env: Env, longest: nat) {
    forall n :: 1 <= env.took(n) <= longest
  }

  datatype Config = Config(
    jobTimeout: nat, queueTimeout: nat, pollInterval: nat, identities: seq<string>, judge: bool)

  const VERDICT_ARTIFACT := "verdict.json"

  function ReviewArtifact(identity: string): string {
    "review-" + identity + ".json"
  }

  /** A poll fails while the experiment runs or when it is over; the store fails on reading the
      job's experiment or on recording one. */
  datatype Error =
    | Submit | Poll(running: bool) | Failed(state: string) | Timeout(last: string) | Queued
    | MissingArtifact(name: string) | BadReview(name: string) | Store(reading: bool)

  datatype Outcome = Outcome(reviews: map<string, string>, verdict: Option<string>)

  datatype Result = Ok(outcome: Outcome) | Err(error: Error)

  datatype Stage = Reading | Submitting | Recording | Polling | Cancelling | Ending | Clearing

  predicate Collecting(stage: Stage) {
    stage.Polling? || stage.Cancelling? || stage.Ending?
  }

  datatype Out = Returned(result: Result) | Dropped(during: Stage)

  /** The rack's most recent artifact of this name. */
  function FindArtifact(artifacts: seq<Artifact>, name: string): (found: Option<Artifact>)
    ensures match found
            case None => forall a :: a in artifacts ==> a.name != name
            case Some(a) =>
              exists i :: 0 <= i < |artifacts| && artifacts[i] == a && a.name == name
                && forall j :: i < j < |artifacts| ==> artifacts[j].name != name
  {
    if artifacts == [] then None
    else
      var last := |artifacts| - 1;
      if artifacts[last].name == name then Some(artifacts[last])
      else FindArtifact(artifacts[..last], name)
  }

  const POLL_FAILED := Returned(Err(Poll(true)))

  predicate Unlearned(out: Out) {
    out == Dropped(Submitting) || out == Returned(Err(Submit))
  }

  predicate Unwritten(out: Out) {
    out == Dropped(Recording) || out == Returned(Err(Store(false)))
  }

  predicate GaveUp(out: Out) {
    out.Returned? && out.result.Err? && (out.result.error.Timeout? || out.result.error.Queued?)
  }

  predicate TimedOut(out: Out) {
    out.Returned? && out.result.Err? && out.result.error.Timeout?
  }

  /** The state last seen by polls from await `n` to `m`, a pause after each. */
  function LastState(env: Env, n: nat, m: int): string {
    if m - 2 >= n && env.poll(m - 2).State? then env.poll(m - 2).state else "unknown"
  }

  /** Whether `collect`, `awaits` awaits into the call, leaves the experiment running: it was dropped or
      a poll failed while the guard was armed, and barry is shutting down or the rack does not stop it
      for the guard; or it gave up, and the rack does not stop it when asked. */
  predicate LeavesRunning(env: Env, awaits: nat, out: Out) {
    awaits > 0 &&
    if out == Dropped(Polling) || out == POLL_FAILED
    then (env.stopAt.Some? && env.stopAt.value < awaits) || !env.stops(awaits - 1)
    else (out == Dropped(Cancelling) || GaveUp(out)) && !env.stops(awaits - 1)
  }

  /** The reviews are exactly the configured reviewers', each the content of the most recent artifact
      of its name. */
  ghost predicate Complete(env: Env, identities: seq<string>, artifacts: seq<Artifact>, reviews: map<string, string>) {
    && (forall identity :: identity in reviews ==> identity in identities)
    && forall identity :: identity in identities ==>
        identity in reviews && env.readable(reviews[identity])
        && var found := FindArtifact(artifacts, "review-" + identity + ".json");
          found.Some? && reviews[identity] == env.content(found.value.id)
  }

  /** `name` is the artifact of a configured reviewer's review. */
  ghost predicate Asked(cfg: Config, name: string) {
    exists identity :: identity in cfg.identities && name == "review-" + identity + ".json"
  }

  /** None of the awaits from `n` to `m` was dropped. */
  predicate NotDropped(env: Env, n: nat, m: nat) {
    env.dropAt.Some? ==> env.dropAt.value < n || m <= env.dropAt.value
  }

  /** `count` fetches from await `n` on succeed. */
  ghost predicate Fetched(env: Env, n: nat, count: nat) {
    forall k :: n <= k < n + count ==> env.fetched(k)
  }

  /** The verdict there is to read at await `n`, if the experiment was to judge. */
  function VerdictAt(env: Env, judge: bool, artifacts: seq<Artifact>, n: nat): Option<string> {
    var found := FindArtifact(artifacts, "verdict.json");
    if judge && found.Some? && env.fetched(n) && env.readable(env.content(found.value.id))
    then Some(env.content(found.value.id)) else None
  }

  /** `o` is what is read back from the listing at await `n` on: every review, fetched, and the verdict. */
  ghost predicate ReadFrom(env: Env, cfg: Config, o: Outcome, n: nat) {
    env.listing(n).Some? &&
    var artifacts, count := env.listing(n).value, |cfg.identities|;
    && Complete(env, cfg.identities, artifacts, o.reviews) && Fetched(env, n + 1, count)
    && o.verdict == VerdictAt(env, cfg.judge, artifacts, n + 1 + count)
  }

  /** Why a succeeded experiment, listed at await `n`, gives no outcome after `awaits` awaits: a request
      failed, or a review is missing or cannot be read. */
  ghost predicate NoUse(env: Env, cfg: Config, n: nat, awaits: nat, error: Error) {
    match error
    case Poll(running) => !running && awaits > n && (env.listing(n).None? || !env.fetched(awaits - 1))
    case MissingArtifact(name) =>
      Asked(cfg, name) && env.listing(n).Some? && FindArtifact(env.listing(n).value, name).None?
    case BadReview(name) =>
      Asked(cfg, name) && env.listing(n).Some? &&
      var found := FindArtifact(env.listing(n).value, name);
      found.Some? && !env.readable(env.content(found.value.id))
    case _ => false
  }

  /** Whatever is asked for is there: the listing names a readable review for every reviewer, every
      fetch succeeds, and nothing is dropped. */
  ghost predicate AllThere(env: Env, cfg: Config, artifacts: seq<Artifact>) {
    && env.dropAt.None? && (forall n :: env.fetched(n) && env.listing(n) == Some(artifacts))
    && forall identity :: identity in cfg.identities ==>
        var found := FindArtifact(artifacts, "review-" + identity + ".json");
        found.Some? && env.readable(env.content(found.value.id))
  }

  /** Why polling ends after `awaits` awaits. The guard is armed exactly as long as the experiment is
      neither over nor asked to stop. */
  ghost predicate PollEnd(env: Env, awaits: nat, end: Option<Out>, armed: bool) {
    && awaits > 0 && (armed <==> end == Some(Dropped(Polling)) || end == Some(POLL_FAILED))
    && match end
       case None => env.poll(awaits - 1).State? && env.poll(awaits - 1).state == "success"
       case Some(Dropped(during)) => (during.Polling? || during.Cancelling?) && env.dropAt == Some(awaits - 1)
       case Some(Returned(Ok(_))) => false
       case Some(Returned(Err(error))) =>
         match error
         case Poll(running) => running && env.poll(awaits - 1).PollFailed?
         case Failed(state) =>
           && env.poll(awaits - 1).State? && env.poll(awaits - 1).state == state
           && state != "pending" && state != "running" && state != "success"
         case Timeout(_) => true
         case Queued => true
         case _ => false
  }

  /** A succeeded experiment gave no outcome. */
  predicate OfNoUse(out: Out) {
    out.Returned? && out.result.Err? &&
    (out.result.error == Poll(false) || out.result.error.MissingArtifact? || out.result.error.BadReview?)
  }

  /** An outcome is what was read back, and an experiment gives none for a reason. */
  ghost predicate Explained(env: Env, cfg: Config, out: Out) {
    && (out.Returned? && out.result.Ok? ==> exists n :: ReadFrom(env, cfg, out.result.outcome, n))
    && (OfNoUse(out) ==> exists n, m :: NoUse(env, cfg, n, m, out.result.error))
  }

  lemma AllThereIsOfUse(env: Env, cfg: Config, n: nat, m: nat, error: Error)
    requires exists artifacts :: AllThere(env, cfg, artifacts)
    ensures !NoUse(env, cfg, n, m, error)
  {
    var artifacts :| AllThere(env, cfg, artifacts);
    assert env.listing(n) == Some(artifacts);
    assert m > 0 ==> env.fetched(m - 1);
  }

  /** An experiment collected from await `n` on comes to succeed, and all it leaves is there. */
  ghost predicate GoesWell(env: Env, cfg: Config, n: nat) {
    Succeeds(env, cfg, n, 0, false) && exists artifacts :: AllThere(env, cfg, artifacts)
  }

  /** Polls from await `n` on, `elapsed` into collecting, come to a success before a deadline passes, a
      poll fails or another end is told; once a host is given the queue's deadline no longer counts. */
  predicate Succeeds(env: Env, cfg: Config, n: nat, elapsed: nat, started: bool)
    decreases if elapsed < cfg.jobTimeout then cfg.jobTimeout - elapsed else 0
  {
    && elapsed < cfg.jobTimeout && (started || elapsed < cfg.queueTimeout)
    && env.dropAt != Some(n) && env.poll(n).State? && env.took(n) >= 1
    && var State(state, jobs) := env.poll(n);
      || state == "success"
      || ((state == "pending" || state == "running") && env.dropAt != Some(n + 1) &&
          Succeeds(env, cfg, n + 2, elapsed + env.took(n) + cfg.pollInterval,
                   started || exists job :: job in jobs && job != "unscheduled"))
  }

  /** Nothing is dropped, and the first poll, await `n`, fails. */
  predicate FirstPollFails(env: Env, cfg: Config, n: nat) {
    env.dropAt.None? && env.poll(n).PollFailed? && cfg.jobTimeout > 0 && cfg.queueTimeout > 0
  }

  /** No poll says that the experiment is over, and no call is dropped. */
  ghost predicate NeverOver(env: Env) {
    env.dropAt.None? && forall n :: env.poll(n).State? ==> Classify(env.poll(n).state).Waiting?
  }

  /** Await `n` makes an experiment whose id the call never learns, if it submits. */
  predicate LosesId(env: Env, n: nat) {
    !env.submission(n).Refused? && (env.submission(n).ReplyLost? || env.dropAt == Some(n))
  }

  /** Await `n` makes an experiment and the next does not write its id, if they submit and record. */
  predicate LeavesUnwritten(env: Env, n: nat) {
    env.submission(n).Accepted? && env.dropAt != Some(n) && !env.stored(n + 1)
  }

  /** Await `n` makes an experiment and the next writes its id, if they submit and record. */
  predicate Records(env: Env, n: nat) {
    env.submission(n).Accepted? && env.stored(n + 1) && env.dropAt.None?
  }

  /** The call gets as far as submitting. */
  predicate StartsFresh(row: Option<Id>, env: Env, n: nat) {
    row.None? && env.stored(n) && env.dropAt != Some(n)
  }

  /** Await `n` cannot make an experiment stray, whatever it is for: it loses no id, fails no write,
      leaves no request to stop unheeded, and is no poll that fails while barry is shutting down. */
  predicate Harmless(env: Env, n: nat) {
    && !LosesId(env, n) && env.stored(n) && env.stops(n)
    && (env.poll(n).PollFailed? ==> env.stopAt.None? || n < env.stopAt.value)
  }

  ghost predicate Sound(env: Env) {
    forall n :: Harmless(env, n)
  }

  /** What a call that ends short of collecting has met in its last await. */
  predicate FailsFor(env: Env, last: int, out: Out) {
    last >= 0 &&
    match out
    case Dropped(_) => env.dropAt == Some(last)
    case Returned(Err(Submit)) => !env.submission(last).Accepted?
    case Returned(Err(Store(_))) => !env.stored(last)
    case _ => true
  }

  class Abandoned {
    const id: Id
    var armed: bool

    constructor (id: Id)
      ensures this.id == id && armed
    {
      this.id, armed := id, true;
    }

    method Disarm()
      modifies this`armed
      ensures !armed
    {
      armed := false;
    }
  }

  /** A job row's experiment, and the rack. Experiments are numbered as the rack makes them. */
  class Job {
    var env: Env
    var awaits: nat
    var now: nat
    var row: Option<Id>
    var issued: nat
    // Experiments of this job that run on: neither seen to be over nor stopped when asked to.
    ghost var live: set<Id>

    predicate Stopping()
      reads this`env, this`awaits
    {
      env.stopAt.Some? && env.stopAt.value < awaits
    }

    ghost predicate Numbered()
      reads this`row, this`issued, this`live
    {
      (forall id :: id in live ==> id < issued) && (row.Some? ==> row.value < issued)
    }

    /** No experiment runs on unless the row names it, so that the next call resumes it. */
    ghost predicate Owned()
      reads this`row, this`live
    {
      forall id :: id in live ==> row == Some(id)
    }

    constructor ()
      ensures Owned() && Numbered() && live == {} && row == None
    {
      env := Env(_ => 1, None, None, _ => true, _ => Accepted, _ => PollFailed, _ => None, _ => true, _ => "",
                 _ => true, _ => true);
      awaits, now, row, issued, live := 0, 0, None, 0, {};
    }

    method Await(took: nat) returns (n: nat, dropped: bool)
      modifies this`awaits, this`now
      ensures n == old(awaits) && awaits == n + 1 && now == old(now) + took
      ensures dropped <==> env.dropAt == Some(n)
    {
      n, dropped := awaits, env.dropAt == Some(awaits);
      awaits, now := awaits + 1, now + took;
    }

    /** Ask the rack to stop, and wait for its answer without looking at it. */
    method Cancel(id: Id) returns (dropped: bool)
      modifies this`awaits, this`now, this`live
      ensures live == if env.stops(old(awaits)) then old(live) - {id} else old(live)
      ensures awaits == old(awaits) + 1 && now == old(now) + env.took(old(awaits))
      ensures dropped <==> env.dropAt == Some(old(awaits))
    {
      var n;
      n, dropped := Await(env.took(awaits));
      if env.stops(n) {
        live := live - {id};
      }
    }

    /** The guard's `Drop`: what runs whether `collect` returns or is dropped. Its request to stop is
        spawned, and nothing waits for it. */
    method DropGuard(guard: Abandoned)
      requires awaits > 0
      modifies this`live
      ensures live ==
        if guard.armed && !Stopping() && env.stops(awaits - 1) then old(live) - {guard.id} else old(live)
    {
      if guard.armed && !Stopping() && env.stops(awaits - 1) {
        live := live - {guard.id};
      }
    }

    /** A deadline has passed: ask for the experiment to be stopped, and report why. */
    method GiveUp(guard: Abandoned, why: Error) returns (out: Out)
      requires why.Timeout? || why.Queued?
      modifies this`awaits, this`now, this`live, guard`armed
      ensures !guard.armed && awaits == old(awaits) + 1 && now == old(now) + env.took(old(awaits))
      ensures out == if env.dropAt == Some(old(awaits)) then Dropped(Cancelling) else Returned(Err(why))
      ensures live == if env.stops(old(awaits)) then old(live) - {guard.id} else old(live)
    {
      guard.Disarm();
      var dropped := Cancel(guard.id);
      out := if dropped then Dropped(Cancelling) else Returned(Err(why));
    }

    /** One poll, and the pause after it if the experiment is not over. `again` asks for another. */
    method PollOnce(cfg: Config, guard: Abandoned, ghost elapsed: nat, ghost started: bool)
      returns (again: bool, end: Option<Out>, state: string, host: bool)
      requires guard.armed && env.took(awaits) >= 1
      requires elapsed < cfg.jobTimeout && (started || elapsed < cfg.queueTimeout)
      modifies this`awaits, this`now, this`live, guard`armed
      ensures awaits > old(awaits) && (again ==> guard.armed)
      ensures live == if guard.armed then old(live) else old(live) - {guard.id}
      ensures now <= old(now) + env.took(old(awaits)) + cfg.pollInterval
      ensures again ==> now == old(now) + env.took(old(awaits)) + cfg.pollInterval
      ensures again ==> awaits == old(awaits) + 2
      ensures again ==> env.poll(old(awaits)).State? && env.poll(old(awaits)).state == state
      ensures Succeeds(env, cfg, old(awaits), elapsed, started) <==>
        if again then Succeeds(env, cfg, awaits, elapsed + env.took(old(awaits)) + cfg.pollInterval, started || host)
        else end.None?
      ensures !again ==> PollEnd(env, awaits, end, guard.armed)
      ensures !again && end.Some? ==> !GaveUp(end.value) && end.value != Dropped(Cancelling)
      ensures env.dropAt.None? && env.poll(old(awaits)).PollFailed? ==>
        !again && end == Some(POLL_FAILED) && awaits == old(awaits) + 1
    {
      again, end, state, host := false, None, "", false;
      var n, dropped := Await(env.took(awaits));
      if dropped {
        end := Some(Dropped(Polling));
      } else if env.poll(n).PollFailed? {
        end := Some(POLL_FAILED);
      } else {
        state, host := env.poll(n).state, HasStarted(env.poll(n).jobs);
        match Classify(state) {
          case Succeeded =>
            guard.Disarm();
            live := live - {guard.id};
          case Ended(last) =>
            guard.Disarm();
            live := live - {guard.id};
            end := Some(Returned(Err(Failed(last))));
          case Waiting =>
            n, dropped := Await(cfg.pollInterval);
            again, end := !dropped, if dropped then Some(Dropped(Polling)) else None;
        }
      }
    }

    /** One turn of the polling loop: the deadlines, and a poll if neither has passed. */
    method PollTurn(cfg: Config, guard: Abandoned, deadline: nat, queueDeadline: nat, ghost elapsed: nat,
                    wasStarted: bool, last: string)
      returns (again: bool, end: Option<Out>, started: bool, state: string)
      requires guard.armed && env.took(awaits) >= 1
      requires now == deadline - cfg.jobTimeout + elapsed == queueDeadline - cfg.queueTimeout + elapsed
      modifies this`awaits, this`now, this`live, guard`armed
      ensures awaits > old(awaits) && (again ==> guard.armed) && (wasStarted ==> started)
      ensures if again then live == old(live) else
        live == if guard.armed || (end.Some? && LeavesRunning(env, awaits, end.value)) then old(live)
                else old(live) - {guard.id}
      ensures Succeeds(env, cfg, old(awaits), elapsed, wasStarted) <==>
        if again then Succeeds(env, cfg, awaits, elapsed + env.took(old(awaits)) + cfg.pollInterval, started)
        else end.None?
      ensures !again ==> PollEnd(env, awaits, end, guard.armed)
      ensures !again && end.Some? && GaveUp(end.value) ==>
        if end.value.result.error.Timeout? then deadline <= now else !started && queueDeadline <= now
      ensures again ==> now == old(now) + env.took(old(awaits)) + cfg.pollInterval
      ensures again ==> awaits == old(awaits) + 2
      ensures again ==> env.poll(old(awaits)).State? && env.poll(old(awaits)).state == state
      ensures !again && end.Some? && TimedOut(end.value) ==>
        end.value.result.error.last == last && awaits == old(awaits) + 1
      ensures now <= old(now) + env.took(old(awaits)) ||
        (old(now) < deadline && (wasStarted || old(now) < queueDeadline)
         && now <= old(now) + env.took(old(awaits)) + cfg.pollInterval)
      ensures again ==> old(now) < deadline && (wasStarted || old(now) < queueDeadline)
      ensures env.dropAt.None? && env.poll(old(awaits)).PollFailed? && old(now < deadline && now < queueDeadline) ==>
        !again && end == Some(POLL_FAILED) && awaits == old(awaits) + 1
    {
      again, started, state := false, wasStarted, last;
      if now >= deadline {
        var out := GiveUp(guard, Timeout(last));
        end := Some(out);
      } else if !started && now >= queueDeadline {
        var out := GiveUp(guard, Queued);
        end := Some(out);
      } else {
        var host;
        again, end, state, host := PollOnce(cfg, guard, elapsed, started);
        started := started || host;
      }
    }

    /** Poll until the experiment is over, or a deadline is. `None` is success. */
    method PollUntilOver(cfg: Config, guard: Abandoned, ghost longest: nat) returns (end: Option<Out>, started: bool)
      requires Timely(env, longest) && guard.armed
      modifies this`awaits, this`now, this`live, guard`armed
      ensures awaits > old(awaits)
      ensures PollEnd(env, awaits, end, guard.armed)
      ensures live == if guard.armed || (end.Some? && LeavesRunning(env, awaits, end.value)) then old(live)
                      else old(live) - {guard.id}
      // The experiment is over with success exactly if the polls come to it before a deadline.
      ensures end.None? <==> Succeeds(env, cfg, old(awaits), 0, false)
      ensures end.Some? && GaveUp(end.value) ==>
        if end.value.result.error.Timeout? then old(now) + cfg.jobTimeout <= now
        else !started && old(now) + cfg.queueTimeout <= now
      // A timeout tells the state that the last poll saw.
      ensures end.Some? && TimedOut(end.value) ==>
        end.value.result.error.last == LastState(env, old(awaits), awaits - 1)
      ensures FirstPollFails(env, cfg, old(awaits)) ==> end == Some(POLL_FAILED) && awaits == old(awaits) + 1
      // One poll and one interval past the deadline, and the request to stop.
      ensures now <= old(now) + cfg.jobTimeout + cfg.pollInterval + 2 * longest
      ensures !started ==> now <= old(now) + cfg.queueTimeout + cfg.pollInterval + 2 * longest
    {
      var deadline, queueDeadline := now + cfg.jobTimeout, now + cfg.queueTimeout;
      var last := "unknown";
      started := false;
      ghost var elapsed, succeeds := 0, Succeeds(env, cfg, awaits, 0, false);
      while true
        invariant guard.armed && live == old(live) && env == old(env) && awaits >= old(awaits)
        invariant now == old(now) + elapsed && (awaits == old(awaits) ==> elapsed == 0)
        invariant FirstPollFails(env, cfg, old(awaits)) ==> awaits == old(awaits)
        invariant succeeds <==> Succeeds(env, cfg, awaits, elapsed, started)
        invariant last == LastState(env, old(awaits), awaits)
        invariant now <= deadline + cfg.pollInterval + longest
        invariant !started ==> now <= queueDeadline + cfg.pollInterval + longest
        decreases deadline - now
      {
        assert 1 <= env.took(awaits) <= longest;
        ghost var further := elapsed + env.took(awaits) + cfg.pollInterval;
        var again;
        again, end, started, last := PollTurn(cfg, guard, deadline, queueDeadline, elapsed, started, last);
        if !again {
          return;
        }
        elapsed := further;
      }
    }

    /** Read every reviewer's review, in order. All of them, or none. */
    method ReadReviews(cfg: Config, artifacts: seq<Artifact>) returns (end: Option<Out>, reviews: map<string, string>)
      modifies this`awaits, this`now
      ensures awaits >= old(awaits)
      ensures NotDropped(env, old(awaits), awaits) || end == Some(Dropped(Ending))
      ensures match end
              case None =>
                && Complete(env, cfg.identities, artifacts, reviews)
                && Fetched(env, old(awaits), |cfg.identities|) && awaits == old(awaits) + |cfg.identities|
              case Some(Dropped(during)) => during == Ending && env.dropAt == Some(awaits - 1)
              case Some(Returned(result)) => result.Err? && match result.error
                case Poll(running) => !running && awaits > 0 && !env.fetched(awaits - 1)
                case MissingArtifact(name) => Asked(cfg, name) && FindArtifact(artifacts, name).None?
                case BadReview(name) =>
                  var found := FindArtifact(artifacts, name);
                  Asked(cfg, name) && found.Some? && !env.readable(env.content(found.value.id))
                case _ => false
    {
      reviews, end := map[], None;
      for i := 0 to |cfg.identities|
        invariant awaits == old(awaits) + i && env == old(env) && Fetched(env, old(awaits), i)
        invariant NotDropped(env, old(awaits), awaits)
        invariant Complete(env, cfg.identities[..i], artifacts, reviews)
      {
        var identity := cfg.identities[i];
        var artifact := FindArtifact(artifacts, ReviewArtifact(identity));
        if artifact.None? {
          return Some(Returned(Err(MissingArtifact(ReviewArtifact(identity))))), reviews;
        }
        var n, dropped := Await(env.took(awaits));
        if dropped {
          return Some(Dropped(Ending)), reviews;
        }
        if !env.fetched(n) {
          return Some(Returned(Err(Poll(false)))), reviews;
        }
        var text := env.content(artifact.value.id);
        if !env.readable(text) {
          return Some(Returned(Err(BadReview(ReviewArtifact(identity))))), reviews;
        }
        reviews := reviews[identity := text];
        assert cfg.identities[..i + 1] == cfg.identities[..i] + [identity];
      }
      assert cfg.identities[..|cfg.identities|] == cfg.identities;
    }

    /** What is read back once the experiment has succeeded. A verdict that is missing or unreadable
        is no error. */
    method Gather(cfg: Config) returns (out: Out)
      modifies this`awaits, this`now
      ensures awaits > old(awaits)
      ensures out.Dropped? ==> out.during == Ending
      ensures if out.Dropped? then env.dropAt == Some(awaits - 1) else NotDropped(env, old(awaits), awaits)
      ensures out.Returned? && out.result.Err? ==> NoUse(env, cfg, old(awaits), awaits, out.result.error)
      ensures out.Returned? && out.result.Ok? ==> ReadFrom(env, cfg, out.result.outcome, old(awaits))
    {
      var n, dropped := Await(env.took(awaits));
      if dropped {
        return Dropped(Ending);
      }
      if env.listing(n).None? {
        return Returned(Err(Poll(false)));
      }
      var artifacts := env.listing(n).value;
      var end, reviews := ReadReviews(cfg, artifacts);
      if end.Some? {
        return end.value;
      }
      var verdict := None;
      if cfg.judge {
        var artifact := FindArtifact(artifacts, VERDICT_ARTIFACT);
        if artifact.Some? {
          n, dropped := Await(env.took(awaits));
          if dropped {
            return Dropped(Ending);
          }
          var text := env.content(artifact.value.id);
          verdict := if env.fetched(n) && env.readable(text) then Some(text) else None;
        }
      }
      out := Returned(Ok(Outcome(reviews, verdict)));
    }

    /** Wait for the experiment and collect its reviews. However that ends, the experiment is over or
        stopped, unless the rack does not stop it or barry is shutting down with the guard armed. */
    method Collect(cfg: Config, id: Id, ghost longest: nat) returns (out: Out)
      requires Timely(env, longest)
      modifies this`awaits, this`now, this`live
      ensures awaits > old(awaits)
      ensures live == if LeavesRunning(env, awaits, out) then old(live) else old(live) - {id}
      ensures out.Dropped? ==> Collecting(out.during)
      ensures NeverOver(env) ==> out == POLL_FAILED || GaveUp(out)
      // It returns an outcome exactly if the experiment succeeds and what it leaves is there to be read.
      ensures GoesWell(env, cfg, old(awaits)) ==> out.Returned? && out.result.Ok?
      ensures out.Returned? && out.result.Ok? ==> Succeeds(env, cfg, old(awaits), 0, false)
      ensures out.Returned? && out.result.Err? ==> !out.result.error.Submit? && !out.result.error.Store?
      ensures FirstPollFails(env, cfg, old(awaits)) ==> out == POLL_FAILED && awaits == old(awaits) + 1
      ensures out == POLL_FAILED ==> env.poll(awaits - 1).PollFailed?
      ensures Explained(env, cfg, out)
    {
      var guard := new Abandoned(id);
      var end, _ := PollUntilOver(cfg, guard, longest);
      if end.Some? {
        out := end.value;
      } else {
        ghost var n := awaits;
        out := Gather(cfg);
        if GoesWell(env, cfg, old(awaits)) && OfNoUse(out) {
          AllThereIsOfUse(env, cfg, n, awaits, out.result.error);
        }
      }
      DropGuard(guard);
    }

    /** Write the job's experiment. A write whose await is dropped can still land. */
    method Record(id: Option<Id>) returns (dropped: bool, stored: bool)
      modifies this`awaits, this`now, this`row
      ensures awaits == old(awaits) + 1 && stored == env.stored(old(awaits))
      ensures row == if stored then id else old(row)
      ensures dropped <==> env.dropAt == Some(old(awaits))
    {
      var n;
      n, dropped := Await(env.took(awaits));
      stored := env.stored(n);
      if stored {
        row := id;
      }
    }

    /** Make an experiment and write it on the row at once. */
    method SubmitAndRecord() returns (end: Option<Out>, id: Id)
      requires Numbered()
      modifies this`awaits, this`now, this`row, this`issued, this`live
      ensures awaits > old(awaits) && Numbered() && old(issued) <= issued <= old(issued) + 1
      ensures live == if issued > old(issued) then old(live) + {old(issued)} else old(live)
      ensures row == old(row) || (issued > old(issued) && row == Some(old(issued)))
      ensures match end
              case None => issued > old(issued) && id == old(issued) && row == Some(id)
              case Some(out) =>
                && (Unlearned(out) || Unwritten(out))
                && ((issued > old(issued) && row != Some(old(issued))) <==> Strays(env, awaits, out, None))
                && FailsFor(env, awaits - 1, out)
      ensures LosesId(env, old(awaits)) ==>
        end.Some? && awaits == old(awaits) + 1 && Unlearned(end.value)
      ensures Records(env, old(awaits)) ==> end.None? && awaits == old(awaits) + 2
      ensures LeavesUnwritten(env, old(awaits)) ==>
        end.Some? && awaits == old(awaits) + 2 && Unwritten(end.value)
    {
      id := issued;
      var n, dropped := Await(env.took(awaits));
      var reply := env.submission(n);
      if !reply.Refused? {
        live, issued := live + {issued}, issued + 1;
      }
      if dropped {
        return Some(Dropped(Submitting)), id;
      }
      if !reply.Accepted? {
        return Some(Returned(Err(Submit))), id;
      }
      var stored;
      dropped, stored := Record(Some(id));
      end := if dropped then Some(Dropped(Recording)) else if !stored then Some(Returned(Err(Store(false)))) else None;
    }

    /** The job's experiment: the one its row remembers, or a new one. */
    method Obtain() returns (end: Option<Out>, id: Id, resumed: bool)
      requires Owned() && Numbered()
      modifies this`awaits, this`now, this`row, this`issued, this`live
      ensures awaits > old(awaits) && Numbered() && old(issued) <= issued <= old(issued) + 1
      ensures forall x, y :: x in live && y in live ==> x == y
      ensures end.None? ==> row == Some(id) && Owned()
      ensures end.None? ==>
        if resumed then old(row) == Some(id) && live == old(live) else id == old(issued) && id in live
      ensures end.Some? ==>
        && (end.value == Dropped(Reading) || end.value == Returned(Err(Store(true))) || Unlearned(end.value)
            || Unwritten(end.value))
        && (Owned() <==> !Strays(env, awaits, end.value, None)) && FailsFor(env, awaits - 1, end.value)
      ensures old(row).Some? ==> issued == old(issued)
      ensures StartsFresh(old(row), env, old(awaits)) && LosesId(env, old(awaits) + 1) ==>
        end.Some? && awaits == old(awaits) + 2 && Unlearned(end.value)
      ensures StartsFresh(old(row), env, old(awaits)) && LeavesUnwritten(env, old(awaits) + 1) ==>
        end.Some? && awaits == old(awaits) + 3 && Unwritten(end.value)
      ensures StartsFresh(old(row), env, old(awaits)) && Records(env, old(awaits) + 1) ==>
        end.None? && awaits == old(awaits) + 3
      ensures env.dropAt.None? && env.stored(old(awaits)) && old(row).Some? ==>
        end.None? && awaits == old(awaits) + 1 && resumed
    {
      id, resumed := 0, row.Some?;
      var n, dropped := Await(env.took(awaits));
      if dropped {
        return Some(Dropped(Reading)), id, resumed;
      }
      if !env.stored(n) {
        return Some(Returned(Err(Store(true)))), id, resumed;
      }
      if resumed {
        end, id := None, row.value;
      } else {
        end, id := SubmitAndRecord();
      }
    }

    /** Make an experiment afresh, in place of one that is over, and collect it. */
    method Resubmit(cfg: Config, ghost longest: nat) returns (end: Option<Out>, out: Out)
      requires Timely(env, longest) && Numbered() && live == {} && row.Some?
      modifies this`awaits, this`now, this`row, this`issued, this`live
      ensures awaits > old(awaits) && Numbered() && old(issued) <= issued <= old(issued) + 1
      ensures forall x :: x in live ==> x == old(issued)
      ensures match end
              case None => Owned() && row.Some? && (live == {} || LeavesRunning(env, awaits, out))
                && (LeavesRunning(env, awaits, out) ==> row.value in live)
                && (out.Dropped? ==> Collecting(out.during))
                && (out.Returned? && out.result.Err? ==> !out.result.error.Submit? && !out.result.error.Store?)
              case Some(end) =>
                && (Unlearned(end) || Unwritten(end))
                && (Owned() <==> !Strays(env, awaits, end, None)) && FailsFor(env, awaits - 1, end)
      ensures end.None? && out == POLL_FAILED ==> env.poll(awaits - 1).PollFailed?
      ensures end.None? ==> Explained(env, cfg, out)
    {
      var again;
      end, again := SubmitAndRecord();
      out := Dropped(Submitting);
      if end.None? {
        out := Collect(cfg, again, longest);
      }
    }

    /** Collect the row's experiment, and if it was resumed and is no use, one made afresh. */
    method CollectOrResubmit(cfg: Config, id: Id, resumed: bool, ghost longest: nat)
      returns (end: Option<Out>, out: Out)
      requires Timely(env, longest) && row == Some(id) && Owned() && Numbered()
      modifies this`awaits, this`now, this`row, this`issued, this`live
      ensures awaits > old(awaits) && Numbered() && old(issued) <= issued <= old(issued) + 1
      ensures issued > old(issued) ==> resumed && id !in live
      ensures forall x, y :: x in live && y in live ==> x == y
      ensures match end
              case None => Owned() && row.Some? && (live == {} || LeavesRunning(env, awaits, out))
                && (LeavesRunning(env, awaits, out) && id in old(live) ==> row.value in live)
                && (out.Dropped? ==> Collecting(out.during))
                && (out.Returned? && out.result.Err? ==> !out.result.error.Submit? && !out.result.error.Store?)
              case Some(end) =>
                && (Unlearned(end) || Unwritten(end))
                && (Owned() <==> !Strays(env, awaits, end, None)) && FailsFor(env, awaits - 1, end)
      ensures end.None? && out == POLL_FAILED ==> env.poll(awaits - 1).PollFailed?
      ensures end.None? ==> Explained(env, cfg, out)
      ensures GoesWell(env, cfg, old(awaits)) ==> end.None? && out.Returned? && out.result.Ok?
      ensures FirstPollFails(env, cfg, old(awaits)) ==> end.None? && out == POLL_FAILED && awaits == old(awaits) + 1
      ensures NeverOver(env) ==> end.None? && (out == POLL_FAILED || GaveUp(out))
    {
      end := None;
      out := Collect(cfg, id, longest);
      if resumed && out.Returned? && out.result.Err?
        && (out.result.error.Failed? || out.result.error.MissingArtifact? || out.result.error.BadReview?)
      {
        end, out := Resubmit(cfg, longest);
      }
    }

    /** Clear the row once the call has come to `out`. */
    method ClearRow(out: Out) returns (out': Out)
      modifies this`awaits, this`now, this`row
      ensures awaits == old(awaits) + 1 && row == if env.stored(old(awaits)) then None else old(row)
      ensures out' == if env.dropAt == Some(old(awaits)) then Dropped(Clearing) else out
    {
      var dropped, stored := Record(None);
      out' := if dropped then Dropped(Clearing) else out;
    }

    /** The call once its experiment is on the row: collect it or one made afresh, and clear the row. */
    method Conclude(cfg: Config, id: Id, resumed: bool, ghost longest: nat) returns (out: Out, collected: Option<Out>)
      requires Timely(env, longest) && row == Some(id) && Owned() && Numbered()
      modifies this`awaits, this`now, this`row, this`issued, this`live
      ensures awaits > old(awaits) && Numbered() && old(issued) <= issued <= old(issued) + 1
      ensures issued > old(issued) ==> resumed && id !in live
      ensures forall x, y :: x in live && y in live ==> x == y
      ensures Sound(env) ==> !Strays(env, awaits, out, collected)
      ensures !Strays(env, awaits, out, collected) ==> Owned()
      ensures Strays(env, awaits, out, collected) && id in old(live) ==> !Owned()
      ensures live != {} ==> MayRun(env, awaits, out, collected)
      ensures Explained(env, cfg, out)
      ensures FirstPollFails(env, cfg, old(awaits)) ==>
        collected == Some(POLL_FAILED) && out == POLL_FAILED && awaits == old(awaits) + 2
      ensures NeverOver(env) ==> collected == Some(out) && (out == POLL_FAILED || GaveUp(out))
      ensures GoesWell(env, cfg, old(awaits)) ==> out.Returned? && out.result.Ok?
    {
      collected := None;
      var end;
      end, out := CollectOrResubmit(cfg, id, resumed, longest);
      if end.Some? {
        SoundStraysNot(env, awaits, end.value);
        return end.value, collected;
      }
      collected := Some(out);
      if out.Dropped? {
        DroppedStraysNot(env, awaits, out);
        return;
      }
      SoundStops(env, awaits, out);
      ghost var came := out;
      out := ClearRow(out);
      ClearingStrays(env, awaits - 1, came, out);
    }

    /** Resume the row's experiment or submit one, collect it, submit afresh once if a resumed one is
        no use, and clear the row. */
    method ReviewForJob(cfg: Config, ghost longest: nat) returns (out: Out, collected: Option<Out>)
      requires Timely(env, longest) && Owned() && Numbered()
      modifies this`awaits, this`now, this`row, this`issued, this`live
      ensures awaits > old(awaits) && (collected.Some? ==> awaits > old(awaits) + 1)
      ensures Numbered() && old(issued) <= issued <= old(issued) + 1
      // A second experiment is made only when the remembered one is over.
      ensures old(row).Some? && issued > old(issued) ==> old(row).value !in live
      ensures forall x, y :: x in live && y in live ==> x == y
      // What every call keeps while each of its awaits is harmless.
      ensures Sound(env) ==> Owned() && !Strays(env, awaits, out, collected)
      // An experiment strays exactly so, unless the remembered one was over already.
      ensures !Strays(env, awaits, out, collected) ==> Owned()
      ensures Strays(env, awaits, out, collected) && (old(row).Some? ==> old(row).value in old(live)) ==> !Owned()
      ensures live != {} ==> MayRun(env, awaits, out, collected)
      ensures Explained(env, cfg, out)
      ensures StartsFresh(old(row), env, old(awaits)) && LosesId(env, old(awaits) + 1) ==> !Owned()
      ensures StartsFresh(old(row), env, old(awaits)) && LeavesUnwritten(env, old(awaits) + 1) ==> !Owned()
      ensures env.stored(old(awaits)) && old(row).Some? && FirstPollFails(env, cfg, old(awaits) + 1) ==>
        collected == Some(POLL_FAILED) && out == POLL_FAILED && awaits == old(awaits) + 3
      // The call returns the reviews if nothing goes wrong, resumed or not.
      ensures env.stored(old(awaits)) && old(row).Some? && GoesWell(env, cfg, old(awaits) + 1) ==>
        out.Returned? && out.result.Ok?
      ensures StartsFresh(old(row), env, old(awaits)) && Records(env, old(awaits) + 1) ==>
        GoesWell(env, cfg, old(awaits) + 3) ==> out.Returned? && out.result.Ok?
      ensures env.stored(old(awaits)) && old(row).Some? && NeverOver(env) ==>
        collected == Some(out) && (out == POLL_FAILED || GaveUp(out))
    {
      collected := None;
      var end, id, resumed := Obtain();
      if end.Some? {
        SoundStraysNot(env, awaits, end.value);
        return end.value, collected;
      }
      out, collected := Conclude(cfg, id, resumed, longest);
    }
  }

  /** When an experiment may be running at the end of a call of `awaits` awaits: it did not come to be
      collected, or collecting it, which only the clearing of the row can follow, left it running. */
  predicate MayRun(env: Env, awaits: nat, out: Out, collected: Option<Out>) {
    || (out.Dropped? && !Collecting(out.during) && !out.during.Clearing?)
    || (out.Returned? && out.result.Err? && (out.result.error.Store? || out.result.error.Submit?))
    || (collected.Some? && awaits > 0 &&
        LeavesRunning(env, if collected.value.Dropped? then awaits else awaits - 1, collected.value))
  }

  /** The calls that leave an experiment running which the row does not name: a submission whose id
      is never learned, an id that is not written, and a poll that failed or a deadline that passed with
      the experiment left running, after which the row is cleared. `awaits` counts the call's awaits. */
  predicate Strays(env: Env, awaits: nat, out: Out, collected: Option<Out>) {
    awaits > 0 &&
    var last := awaits - 1;
    if Unlearned(out) then !env.submission(last).Refused?
    else if Unwritten(out) then !env.stored(last)
    else collected.Some? && collected.value.Returned? && env.stored(last) && LeavesRunning(env, last, collected.value)
  }

  /** A call that resumes a running experiment while barry is shutting down, and whose first poll fails,
      leaves the experiment running and clears it off the row. */
  method PollFailureStrays(job: Job, cfg: Config)
    requires job.Owned() && job.Numbered() && job.row.Some? && job.row.value in job.live
    requires cfg.jobTimeout > 0 && cfg.queueTimeout > 0
    modifies job
    ensures !job.Owned()
  {
    job.env := Env(_ => 1, None, Some(0), _ => true, _ => Accepted, _ => PollFailed, _ => None, _ => true, _ => "",
                   _ => true, _ => true);
    job.awaits := 0;
    var out, collected := job.ReviewForJob(cfg, 1);
  }

  /** Whatever the deadlines: a call that resumes a running experiment which no poll says is over, and
      which the rack does not stop when asked, leaves it running and clears it off the row. */
  method UnstoppedStrays(job: Job, cfg: Config, env: Env, ghost longest: nat)
    requires job.Owned() && job.Numbered() && job.row.Some? && job.row.value in job.live
    requires Timely(env, longest) && NeverOver(env)
    requires forall n :: env.stored(n) && !env.stops(n)
    modifies job
    ensures !job.Owned()
  {
    job.env, job.awaits := env, 0;
    var out, collected := job.ReviewForJob(cfg, longest);
  }

  lemma SoundStraysNot(env: Env, awaits: nat, out: Out)
    requires awaits > 0 && FailsFor(env, awaits - 1, out)
    ensures Sound(env) ==> !Strays(env, awaits, out, None)
  {
    assert Harmless(env, awaits - 1) || !Sound(env);
  }

  /** A call that clears the row after collecting came to `came` strays exactly if that left the experiment
      running and the row is cleared. */
  lemma ClearingStrays(env: Env, n: nat, came: Out, out: Out)
    requires came.Returned? && !Unlearned(came) && !Unwritten(came) && (out == came || out == Dropped(Clearing))
    ensures Strays(env, n + 1, out, Some(came)) <==> env.stored(n) && LeavesRunning(env, n, came)
    ensures LeavesRunning(env, n, came) ==> MayRun(env, n + 1, out, Some(came))
  {
  }

  lemma DroppedStraysNot(env: Env, awaits: nat, out: Out)
    requires out.Dropped? && Collecting(out.during)
    ensures !Strays(env, awaits, out, Some(out))
    ensures LeavesRunning(env, awaits, out) ==> MayRun(env, awaits, out, Some(out))
  {
  }

  lemma SoundStops(env: Env, awaits: nat, out: Out)
    requires out == POLL_FAILED ==> awaits > 0 && env.poll(awaits - 1).PollFailed?
    ensures Sound(env) && out.Returned? ==> !LeavesRunning(env, awaits, out)
  {
    assert awaits > 0 ==> Harmless(env, awaits - 1) || !Sound(env);
  }

  /** For a job without an experiment, whatever else its call meets: an id that is lost, or is not
      written, strays. */
  method LostOrUnwrittenIdStrays(job: Job, cfg: Config, env: Env, ghost longest: nat)
    requires job.Owned() && job.Numbered() && job.row.None? && Timely(env, longest)
    requires StartsFresh(job.row, env, 0) && (LosesId(env, 1) || LeavesUnwritten(env, 1))
    modifies job
    ensures !job.Owned()
  {
    job.env, job.awaits := env, 0;
    var out, collected := job.ReviewForJob(cfg, longest);
  }

  /** Every call for a job, one per process that leases it, up to one that strays. While the calls are
      sound none does. */
  method Calls(job: Job, cfg: Config, envs: seq<Env>, ghost longest: nat) returns (done: nat)
    requires job.Owned() && job.Numbered()
    requires forall env :: env in envs ==> Timely(env, longest)
    modifies job
    ensures done <= |envs|
    ensures if done == |envs| then job.Owned() else !Sound(envs[done])
    // At most one experiment of the job is running, and each call made at most one.
    ensures forall x, y :: x in job.live && y in job.live ==> x == y
    ensures job.issued <= old(job.issued) + |envs|
  {
    for i := 0 to |envs|
      invariant job.Owned() && job.Numbered() && job.issued <= old(job.issued) + i
    {
      job.env, job.awaits := envs[i], 0;
      var out, collected := job.ReviewForJob(cfg, longest);
      if Strays(job.env, job.awaits, out, collected) {
        return i;
      }
    }
    return |envs|;
  }
}
