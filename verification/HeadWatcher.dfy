/** `watch_head` of src/dispatcher/run.rs, by the clock: how the head of a review in flight is looked
    up again when pushes arrive. */
module HeadWatcher {
  import opened Options

  datatype Answer = Moved | Same | Unknown

  /** `pushes` are the times at which the review is asked to look again; `took(n)` and `answer(n)`
      are lookup `n`'s. The token is fired from elsewhere at `cancelAt`, if ever, and the review,
      and with it the watcher, is over at `over`. */
  datatype Env = Env(pushes: seq<nat>, took: nat -> nat, answer: nat -> Answer, cancelAt: Option<nat>, over: nat)

  ghost predicate Timely(env: Env, longest: nat) {
    && (forall n :: env.took(n) <= longest)
    && (forall i, j :: 0 <= i <= j < |env.pushes| ==> env.pushes[i] <= env.pushes[j])
  }

  datatype Lookup = Lookup(from: nat, until: nat, answer: Answer)

  datatype End = ReviewOver | FiredElsewhere | HeadMoved

  /** How many of the pushes have come by `now`. */
  function Arrived(pushes: seq<nat>, now: nat): (n: nat)
    ensures n <= |pushes|
    ensures n > 0 ==> pushes[n - 1] <= now
    ensures (forall i, j :: 0 <= i <= j < |pushes| ==> pushes[i] <= pushes[j]) ==>
      forall i :: 0 <= i < |pushes| ==> (pushes[i] <= now <==> i < n)
  {
    if pushes == [] then 0
    else if pushes[|pushes| - 1] <= now then |pushes|
    else Arrived(pushes[..|pushes| - 1], now)
  }

  /** The first time at or after `now` that stops the watcher, if it is not after `t`. */
  function StoppedBy(env: Env, now: nat, t: nat): Option<(nat, End)> {
    if env.over <= t && (env.cancelAt.None? || env.over <= env.cancelAt.value) then
      Some((if env.over < now then now else env.over, ReviewOver))
    else if env.cancelAt.Some? && env.cancelAt.value <= t then
      Some((if env.cancelAt.value < now then now else env.cancelAt.value, FiredElsewhere))
    else None
  }

  /** The watcher ends at `at` for the reason it gives. */
  predicate Stopped(env: Env, at: nat, end: End) {
    && (end.FiredElsewhere? ==> env.cancelAt.Some? && env.cancelAt.value <= at)
    && (end.ReviewOver? ==> env.over <= at)
  }

  /** A lookup for the push at `p`, within a lookup and an interval of it. */
  predicate AnsweredBy(l: Lookup, p: nat, within: nat) {
    p <= l.from <= p + within
  }

  ghost predicate Answered(lookups: seq<Lookup>, p: nat, within: nat) {
    exists i :: 0 <= i < |lookups| && AnsweredBy(lookups[i], p, within)
  }

  /** Lookups are an interval apart, end to start. */
  ghost predicate Spaced(lookups: seq<Lookup>, interval: nat) {
    forall i :: 1 <= i < |lookups| ==> lookups[i - 1].until + interval <= lookups[i].from
  }

  /** Every push up to the last lookup is answered, within the bound. */
  ghost predicate Served(pushes: seq<nat>, lookups: seq<Lookup>, within: nat) {
    forall j :: 0 <= j < |pushes| && lookups != [] && pushes[j] <= lookups[|lookups| - 1].from ==>
      Answered(lookups, pushes[j], within)
  }

  /** A lookup made as soon as the interval allows, or on the next push if none is waiting, serves
      every push since the one before. */
  lemma LookupServes(pushes: seq<nat>, lookups: seq<Lookup>, l: Lookup, within: nat)
    requires Served(pushes, lookups, within)
    requires lookups == [] || l.from <= lookups[|lookups| - 1].from + within
      || forall j :: 0 <= j < |pushes| ==> pushes[j] <= lookups[|lookups| - 1].from || l.from <= pushes[j]
    requires lookups == [] ==> forall j :: 0 <= j < |pushes| ==> l.from <= pushes[j] + within
    ensures Served(pushes, lookups + [l], within)
  {
    var all := lookups + [l];
    forall j | 0 <= j < |pushes| && pushes[j] <= l.from ensures Answered(all, pushes[j], within) {
      if lookups != [] && pushes[j] <= lookups[|lookups| - 1].from {
        var i :| 0 <= i < |lookups| && AnsweredBy(lookups[i], pushes[j], within);
        assert AnsweredBy(all[i], pushes[j], within);
      } else {
        assert AnsweredBy(all[|lookups|], pushes[j], within);
      }
    }
  }

  /** Every push is answered, or the watcher is done before the answer is due. */
  ghost predicate AnsweredInTime(pushes: seq<nat>, lookups: seq<Lookup>, within: nat, at: nat) {
    forall j :: 0 <= j < |pushes| ==> Answered(lookups, pushes[j], within) || at <= pushes[j] + within
  }

  lemma ServedInTime(pushes: seq<nat>, lookups: seq<Lookup>, within: nat, at: nat)
    requires Served(pushes, lookups, within)
    requires forall j :: 0 <= j < |pushes| && (lookups == [] || lookups[|lookups| - 1].from < pushes[j]) ==>
      at <= pushes[j] + within
    ensures AnsweredInTime(pushes, lookups, within, at)
  {
  }

  /** The watcher cancels exactly when a lookup shows another head, and at once. */
  predicate MovedLast(lookups: seq<Lookup>, stop: Option<(nat, End)>) {
    && (forall i :: 0 <= i < |lookups| ==>
        (lookups[i].answer.Moved? <==> stop.Some? && stop.value.1.HeadMoved? && i == |lookups| - 1))
    && (stop.Some? && stop.value.1.HeadMoved? ==> lookups != [] && stop.value.0 == lookups[|lookups| - 1].until)
  }

  // ---- the repeat ----

  /** Every other lookup repeats the one before it, an interval after. */
  ghost predicate Repeated(lookups: seq<Lookup>, interval: nat) {
    forall i :: 1 <= i < |lookups| && i % 2 == 1 ==> lookups[i].from == lookups[i - 1].until + interval
  }

  /** Lookup `i` is the first at or after `p`. */
  predicate FirstFor(lookups: seq<Lookup>, i: nat, p: nat) {
    i < |lookups| && p <= lookups[i].from && (i == 0 || lookups[i - 1].from < p)
  }

  /** The first lookup for a push is followed by one exactly an interval after it. */
  ghost predicate Rechecked(pushes: seq<nat>, lookups: seq<Lookup>, interval: nat) {
    forall i: nat, j: nat :: i + 1 < |lookups| && j < |pushes| && FirstFor(lookups, i, pushes[j]) ==>
      lookups[i + 1].from == lookups[i].until + interval
  }

  /** And a watcher that is done at `at` without it is done by then. */
  ghost predicate DoneBefore(pushes: seq<nat>, lookups: seq<Lookup>, interval: nat, at: nat) {
    forall j: nat :: j < |pushes| && lookups != [] && FirstFor(lookups, |lookups| - 1, pushes[j]) ==>
      at <= lookups[|lookups| - 1].until + interval
  }

  /** The permits taken are of pushes up to the last lookup that was woken. */
  ghost predicate TakenFor(pushes: seq<nat>, lookups: seq<Lookup>, consumed: nat) {
    consumed <= |pushes| &&
    forall j :: 0 <= j < consumed ==>
      lookups != [] && pushes[j] <= lookups[(|lookups| - 1) / 2 * 2].from
  }

  /** A push whose first lookup is a repeat has left its permit, so that the next wait ends at once. */
  lemma PermitIsLeft(pushes: seq<nat>, lookups: seq<Lookup>, consumed: nat, j: nat)
    requires TakenFor(pushes, lookups, consumed) && j < |pushes|
    requires lookups != [] && |lookups| % 2 == 0 && FirstFor(lookups, |lookups| - 1, pushes[j])
    ensures consumed <= j
  {
    assert (|lookups| - 1) / 2 * 2 == |lookups| - 2;
  }

  /** A lookup that repeats the last, or is made on a wake, which is at once if a permit is left. */
  lemma LookupRechecks(pushes: seq<nat>, lookups: seq<Lookup>, interval: nat, l: Lookup, consumed: nat, taken: nat)
    requires Repeated(lookups, interval) && Rechecked(pushes, lookups, interval)
    requires TakenFor(pushes, lookups, consumed) && taken <= |pushes|
    requires lookups != [] ==>
      var last := lookups[|lookups| - 1]; last.from <= last.until + interval <= l.from
    requires |lookups| % 2 == 1 ==> taken == consumed && l.from == lookups[|lookups| - 1].until + interval
    requires |lookups| % 2 == 0 ==> forall j :: 0 <= j < taken ==> pushes[j] <= l.from
    requires lookups != [] && |lookups| % 2 == 0 ==>
      || l.from == lookups[|lookups| - 1].until + interval
      || forall j :: consumed <= j < |pushes| ==> l.from <= pushes[j]
    ensures Repeated(lookups + [l], interval) && Rechecked(pushes, lookups + [l], interval)
    ensures TakenFor(pushes, lookups + [l], taken)
  {
    var all, n := lookups + [l], |lookups|;
    forall i: nat, j: nat | i + 1 < |all| && j < |pushes| && FirstFor(all, i, pushes[j])
      ensures all[i + 1].from == all[i].until + interval
    {
      assert FirstFor(lookups, i, pushes[j]);
      if i + 1 == n && n % 2 == 0 {
        PermitIsLeft(pushes, lookups, consumed, j);
      }
    }
    assert n / 2 * 2 == if n % 2 == 0 then n else n - 1;
    assert n > 0 ==> (n - 1) / 2 * 2 == if n % 2 == 0 then n - 2 else n - 1;
  }

  /** A watcher stopped while it waits for a wake stops at once if a permit is left. */
  lemma StopRechecks(pushes: seq<nat>, lookups: seq<Lookup>, interval: nat, consumed: nat, now: nat, at: nat)
    requires TakenFor(pushes, lookups, consumed) && |lookups| % 2 == 0
    requires lookups != [] ==>
      var last := lookups[|lookups| - 1]; last.from <= now == last.until + interval
    requires at == now || forall j :: consumed <= j < |pushes| ==> at <= pushes[j]
    ensures DoneBefore(pushes, lookups, interval, at)
  {
    forall j: nat | j < |pushes| && lookups != [] && FirstFor(lookups, |lookups| - 1, pushes[j])
      ensures at <= lookups[|lookups| - 1].until + interval
    {
      PermitIsLeft(pushes, lookups, consumed, j);
    }
  }

  /** Lookup `n` as it comes out: one that the review does not outlast gives no answer. */
  function LookUp(env: Env, n: nat, now: nat): Lookup {
    var until := now + env.took(n);
    Lookup(now, until, if env.over <= until then Unknown else env.answer(n))
  }

  /** A lookup that the review does not outlast is the last, and the watcher is done with it. None is
      begun once the token has fired, and the watcher is done then or with the lookup under way. */
  ghost predicate Outlasted(env: Env, lookups: seq<Lookup>, at: nat) {
    && (forall i :: 0 <= i < |lookups| && env.over <= lookups[i].until ==> i == |lookups| - 1 && at <= lookups[i].until)
    && (forall i :: 0 <= i < |lookups| ==> SilentAt(env, lookups[i].from))
    && at <= env.over
    && (env.cancelAt.Some? ==>
          at <= env.cancelAt.value || (lookups != [] && at <= lookups[|lookups| - 1].until))
  }

  /** The token is silent and the review goes on at `t`. */
  predicate SilentAt(env: Env, t: nat) {
    t < env.over && (env.cancelAt.Some? ==> t < env.cancelAt.value)
  }

  ghost predicate AsAnswered(env: Env, lookups: seq<Lookup>) {
    forall i :: 0 <= i < |lookups| ==> lookups[i] == LookUp(env, i, lookups[i].from)
  }

  /** What `WatchHead` keeps, when the first `consumed` pushes have had their permit taken and the next
      lookup may start at `now`. */
  ghost predicate Watched(env: Env, interval: nat, longest: nat, lookups: seq<Lookup>, consumed: nat, now: nat) {
    && Spaced(lookups, interval) && Served(env.pushes, lookups, longest + interval) && AsAnswered(env, lookups)
    && consumed <= |env.pushes|
    && (if lookups == [] then now == 0 && consumed == 0
        else
          var l := lookups[|lookups| - 1];
          l.from <= now == l.until + interval <= l.from + longest + interval)
    && (forall j :: 0 <= j < consumed ==> lookups != [] && env.pushes[j] <= lookups[|lookups| - 1].from)
  }

  /** One more lookup keeps it: at once, or on a wake that took the permit of the pushes before `taken`. */
  lemma LookupKeepsWatch(env: Env, interval: nat, longest: nat, lookups: seq<Lookup>, consumed: nat, now: nat,
                         wake: nat, taken: nat)
    requires Timely(env, longest) && Watched(env, interval, longest, lookups, consumed, now)
    requires now <= wake && consumed <= taken <= |env.pushes|
    requires lookups == [] ==> consumed < taken
    requires forall j :: consumed <= j < taken ==> env.pushes[j] <= wake
    requires wake == now || forall j :: consumed <= j < |env.pushes| ==> wake <= env.pushes[j]
    ensures var l := LookUp(env, |lookups|, wake);
            Watched(env, interval, longest, lookups + [l], taken, l.until + interval)
  {
    var l := LookUp(env, |lookups|, wake);
    LookupServes(env.pushes, lookups, l, longest + interval);
  }

  /** Wait for the permit a push leaves, or to be stopped. One permit stands for all the pushes
      since the last was taken. */
  method AwaitPush(env: Env, now: nat, consumed: nat, ghost longest: nat)
    returns (stop: Option<(nat, End)>, wake: nat, taken: nat)
    requires Timely(env, longest) && consumed <= |env.pushes| && (now == 0 || SilentAt(env, now))
    ensures match stop
            case None =>
              && now <= wake && SilentAt(env, wake) && consumed < taken <= |env.pushes|
              && (forall j :: 0 <= j < taken ==> env.pushes[j] <= wake)
              && (if wake == now then forall j :: 0 <= j < |env.pushes| && env.pushes[j] <= now ==> j < taken
                  else taken == consumed + 1)
              && (wake == now || forall j :: consumed <= j < |env.pushes| ==> wake <= env.pushes[j])
            case Some((at, end)) =>
              && now <= at <= env.over && (env.cancelAt.Some? ==> at <= env.cancelAt.value)
              && !end.HeadMoved? && Stopped(env, at, end)
              && (at == now || forall j :: consumed <= j < |env.pushes| ==> at <= env.pushes[j])
  {
    wake, taken := now, consumed;
    if consumed < |env.pushes| {
      wake := if env.pushes[consumed] < now then now else env.pushes[consumed];
      stop := StoppedBy(env, now, wake);
      taken := if wake == now then Arrived(env.pushes, now) else consumed + 1;
    } else {
      stop := StoppedBy(env, now, env.over);
    }
  }

  /** Look the head up, cancel if it moved, and sleep until the next lookup may start. */
  method LookAndSleep(env: Env, interval: nat, n: nat, wake: nat)
    returns (l: Lookup, stop: Option<(nat, End)>, now: nat)
    requires SilentAt(env, wake)
    ensures l == LookUp(env, n, wake)
    ensures l.answer.Moved? <==> stop.Some? && stop.value.1.HeadMoved?
    ensures match stop
            case None => wake + interval <= now == l.until + interval && SilentAt(env, now)
            case Some((at, end)) =>
              && at <= env.over && (env.cancelAt.Some? ==> at <= env.cancelAt.value || at <= l.until)
              && at <= l.until + interval && Stopped(env, at, end) && (end.HeadMoved? ==> at == l.until)
              && (env.over <= l.until ==> at <= l.until)
  {
    l, stop := LookUp(env, n, wake), None;
    now := l.until + interval;
    if env.over <= l.until {
      stop := Some((env.over, ReviewOver));
    } else if l.answer.Moved? {
      stop := Some((l.until, HeadMoved));
    } else {
      stop := StoppedBy(env, l.until, now);
    }
  }

  /** What the loop keeps: `Watched`, the repeats, and no lookup that ended the watch. */
  ghost predicate Kept(env: Env, interval: nat, longest: nat, lookups: seq<Lookup>, consumed: nat, now: nat) {
    && Watched(env, interval, longest, lookups, consumed, now) && MovedLast(lookups, None)
    && Repeated(lookups, interval) && Rechecked(env.pushes, lookups, interval)
    && TakenFor(env.pushes, lookups, consumed)
    && (lookups != [] ==> SilentAt(env, now))
    && forall i :: 0 <= i < |lookups| ==> lookups[i].until < env.over && SilentAt(env, lookups[i].from)
  }

  /** What a watcher that is done at `at` has done. */
  ghost predicate Done(env: Env, interval: nat, longest: nat, lookups: seq<Lookup>, at: nat, end: End) {
    // Lookups are an interval apart, and one shows a moved head exactly if the watcher cancels, at once.
    && Spaced(lookups, interval) && AsAnswered(env, lookups) && Outlasted(env, lookups, at)
    && MovedLast(lookups, Some((at, end))) && Stopped(env, at, end)
    // Each push is looked up for in time, and again an interval later, unless the watcher is done first.
    && AnsweredInTime(env.pushes, lookups, longest + interval, at)
    && Rechecked(env.pushes, lookups, interval) && DoneBefore(env.pushes, lookups, interval, at)
    // Every other lookup is the repeat of one that was woken.
    && Repeated(lookups, interval) && (|lookups| % 2 == 1 ==> at <= lookups[|lookups| - 1].until + interval)
  }

  /** One lookup more, without the one that stops the watcher or the sleep that does not. */
  lemma LookupKeeps(env: Env, interval: nat, longest: nat, lookups: seq<Lookup>, consumed: nat, now: nat,
                    wake: nat, taken: nat)
    requires Timely(env, longest) && Kept(env, interval, longest, lookups, consumed, now)
    requires now <= wake && consumed <= taken <= |env.pushes| && (lookups == [] ==> consumed < taken)
    requires |lookups| % 2 == 1 ==> taken == consumed && wake == now
    requires forall j :: 0 <= j < taken ==> env.pushes[j] <= wake
    requires wake == now || forall j :: consumed <= j < |env.pushes| ==> wake <= env.pushes[j]
    ensures var l := LookUp(env, |lookups|, wake); var made := lookups + [l];
      && Watched(env, interval, longest, made, taken, l.until + interval)
      && Repeated(made, interval) && Rechecked(env.pushes, made, interval) && TakenFor(env.pushes, made, taken)
  {
    LookupKeepsWatch(env, interval, longest, lookups, consumed, now, wake, taken);
    LookupRechecks(env.pushes, lookups, interval, LookUp(env, |lookups|, wake), consumed, taken);
  }

  /** What one lookup more, and the sleep after it, make of the watch's end. */
  lemma LookupEnds(env: Env, lookups: seq<Lookup>, l: Lookup, stop: Option<(nat, End)>)
    requires MovedLast(lookups, None) && SilentAt(env, l.from)
    requires forall i :: 0 <= i < |lookups| ==> lookups[i].until < env.over && SilentAt(env, lookups[i].from)
    requires l.answer.Moved? <==> stop.Some? && stop.value.1.HeadMoved?
    requires stop.Some? && stop.value.1.HeadMoved? ==> stop.value.0 == l.until
    requires if stop.None? then l.until < env.over else env.over <= l.until ==> stop.value.0 <= l.until
    requires stop.Some? ==>
      var at := stop.value.0; at <= env.over && (env.cancelAt.Some? ==> at <= env.cancelAt.value || at <= l.until)
    ensures MovedLast(lookups + [l], stop)
    ensures var made := lookups + [l];
      if stop.None? then forall i :: 0 <= i < |made| ==> made[i].until < env.over && SilentAt(env, made[i].from)
      else Outlasted(env, made, stop.value.0)
  {
  }

  lemma StopIsDone(env: Env, interval: nat, longest: nat, made: seq<Lookup>, taken: nat, next: nat, at: nat, end: End)
    requires made != [] && Watched(env, interval, longest, made, taken, next)
    requires Repeated(made, interval) && Rechecked(env.pushes, made, interval)
    requires MovedLast(made, Some((at, end))) && Outlasted(env, made, at) && Stopped(env, at, end)
    requires at <= made[|made| - 1].until + interval
    ensures Done(env, interval, longest, made, at, end)
  {
    ServedInTime(env.pushes, made, longest + interval, at);
  }

  /** The lookup of one turn of the watcher's loop, and the sleep after it. */
  method LookupTurn(env: Env, interval: nat, ghost longest: nat, lookups: seq<Lookup>,
                    ghost consumed: nat, ghost now: nat, wake: nat, ghost taken: nat)
    returns (stop: Option<(nat, End)>, made: seq<Lookup>, next: nat)
    requires Timely(env, longest) && Kept(env, interval, longest, lookups, consumed, now)
    requires now <= wake && consumed <= taken <= |env.pushes| && (lookups == [] ==> consumed < taken)
    requires |lookups| % 2 == 1 ==> taken == consumed && wake == now
    requires SilentAt(env, wake) && forall j :: 0 <= j < taken ==> env.pushes[j] <= wake
    requires wake == now || forall j :: consumed <= j < |env.pushes| ==> wake <= env.pushes[j]
    ensures |made| == |lookups| + 1
    ensures match stop
            case None => Kept(env, interval, longest, made, taken, next) && now + interval <= next < env.over
            case Some((at, end)) => Done(env, interval, longest, made, at, end)
  {
    LookupKeeps(env, interval, longest, lookups, consumed, now, wake, taken);
    var l;
    l, stop, next := LookAndSleep(env, interval, |lookups|, wake);
    made := lookups + [l];
    LookupEnds(env, lookups, l, stop);
    if stop.Some? {
      StopIsDone(env, interval, longest, made, taken, l.until + interval, stop.value.0, stop.value.1);
    }
  }

  /** One turn of the watcher's loop: wait for a wake unless this is the repeat, look up, sleep. */
  method Turn(env: Env, interval: nat, ghost longest: nat, lookups: seq<Lookup>, consumed: nat, now: nat, repeat: bool)
    returns (stop: Option<(nat, End)>, made: seq<Lookup>, taken: nat, next: nat)
    requires Timely(env, longest) && Kept(env, interval, longest, lookups, consumed, now)
    requires repeat <==> |lookups| % 2 == 1
    ensures taken <= |env.pushes| && (if repeat then taken == consumed else made != lookups ==> consumed < taken)
    ensures |made| == |lookups| + 1 || (made == lookups && !repeat && stop.Some?)
    ensures match stop
            case None => Kept(env, interval, longest, made, taken, next) && now + interval <= next < env.over
            case Some((at, end)) => Done(env, interval, longest, made, at, end)
  {
    var wake;
    stop, made, wake, taken, next := None, lookups, now, consumed, now;
    if !repeat {
      stop, wake, taken := AwaitPush(env, now, consumed, longest);
      if stop.Some? {
        taken := consumed;
        ServedInTime(env.pushes, made, longest + interval, stop.value.0);
        StopRechecks(env.pushes, lookups, interval, consumed, now, stop.value.0);
        return;
      }
    }
    stop, made, next := LookupTurn(env, interval, longest, lookups, consumed, now, wake, taken);
  }

  lemma NothingYetIsKept(env: Env, interval: nat, longest: nat)
    ensures Kept(env, interval, longest, [], 0, 0)
  {
  }

  /** Watch until the review is over or cancelled, looking the head up after a wake and, when that
      shows no move, once more after `interval`. */
  method WatchHead(env: Env, interval: nat, ghost longest: nat)
    returns (end: End, at: nat, lookups: seq<Lookup>, wakes: nat)
    requires interval > 0 && Timely(env, longest)
    ensures Done(env, interval, longest, lookups, at, end)
    ensures wakes == (|lookups| + 1) / 2 && wakes <= |env.pushes|
  {
    var now, consumed, repeat := 0, 0, false;
    lookups, wakes := [], 0;
    NothingYetIsKept(env, interval, longest);
    while true
      invariant wakes <= consumed && Kept(env, interval, longest, lookups, consumed, now)
      invariant |lookups| == (if repeat then 2 * wakes - 1 else 2 * wakes)
      decreases env.over - now
    {
      var stop, made, taken, next := Turn(env, interval, longest, lookups, consumed, now, repeat);
      wakes := if repeat || made == lookups then wakes else wakes + 1;
      if stop.Some? {
        return stop.value.1, stop.value.0, made, wakes;
      }
      lookups, consumed, now, repeat := made, taken, next, !repeat;
    }
  }

  /** A lookup after a push's first meets a move that lookups show by then, or the end of the review. */
  lemma SecondLookupEnds(env: Env, interval: nat, lookups: seq<Lookup>, at: nat, end: End, p: nat, i: nat)
    requires MovedLast(lookups, Some((at, end))) && AsAnswered(env, lookups) && Outlasted(env, lookups, at)
    requires i + 1 < |lookups| && lookups[i + 1].from == lookups[i].until + interval
    requires p <= lookups[i].from <= lookups[i].until
    requires forall k :: 0 <= k < |lookups| && lookups[k].from >= p + interval ==> env.answer(k).Moved?
    ensures at <= lookups[i + 1].until
  {
    var l := lookups[i + 1];
    assert l == LookUp(env, i + 1, l.from) && env.answer(i + 1).Moved?;
    assert l.answer.Moved? || env.over <= l.until;
  }

  lemma InOrder(env: Env, interval: nat, longest: nat, lookups: seq<Lookup>)
    requires Timely(env, longest) && AsAnswered(env, lookups) && Spaced(lookups, interval)
    ensures forall i :: 0 <= i < |lookups| ==> lookups[i].from <= lookups[i].until <= lookups[i].from + longest
    ensures forall i :: 1 <= i < |lookups| ==> lookups[i - 1].from <= lookups[i].from
  {
    forall i | 0 <= i < |lookups| ensures lookups[i].from <= lookups[i].until <= lookups[i].from + longest {
      assert lookups[i] == LookUp(env, i, lookups[i].from) && env.took(i) <= longest;
    }
  }

  /** What the repeat is for: if lookups show a push's move only from `interval` after it, the review of
      the old head is over within three lookups and two intervals of the push all the same. */
  lemma LateMoveIsCaught(env: Env, interval: nat, longest: nat, lookups: seq<Lookup>, at: nat, end: End, j: nat)
    requires Timely(env, longest) && j < |env.pushes| && Done(env, interval, longest, lookups, at, end)
    requires forall i :: 0 <= i < |lookups| && lookups[i].from >= env.pushes[j] + interval ==> env.answer(i).Moved?
    ensures at <= env.pushes[j] + 3 * longest + 2 * interval
  {
    var p := env.pushes[j];
    InOrder(env, interval, longest, lookups);
    if Answered(lookups, p, longest + interval) {
      var i := FirstAnswer(lookups, p, longest + interval);
      if i + 1 < |lookups| {
        assert lookups[i + 1].from == lookups[i].until + interval;
        SecondLookupEnds(env, interval, lookups, at, end, p, i);
      } else {
        assert at <= lookups[i].until + interval;
      }
    } else {
      assert at <= p + longest + interval;
    }
  }

  lemma {:induction false} FirstAnswer(lookups: seq<Lookup>, p: nat, within: nat) returns (i: nat)
    requires Answered(lookups, p, within) && forall i :: 1 <= i < |lookups| ==> lookups[i - 1].from <= lookups[i].from
    ensures FirstFor(lookups, i, p) && AnsweredBy(lookups[i], p, within)
  {
    var k :| 0 <= k < |lookups| && AnsweredBy(lookups[k], p, within);
    i := k;
    while i > 0 && p <= lookups[i - 1].from
      invariant i < |lookups| && AnsweredBy(lookups[i], p, within)
    {
      i := i - 1;
    }
  }
}
