/** `GitHub::write` of src/github/client.rs: one write to GitHub, retried until it lands, is
    refused for good, runs out of time or is cancelled.

    Time is counted in nanoseconds. What GitHub, the network, the clock and the random source do
    is an `Env`, a value of total functions indexed by the number of the call, so a statement
    about every `Env` is a statement about every run. */
module WriteRetry {
  import opened Options

  const SECOND: nat := 1_000_000_000
  const U64: nat := 0x1_0000_0000_0000_0000
  const LOOKUPS_BEFORE_RESEND: nat := 2

  datatype Config = Config(deadline: nat, baseDelay: nat, maxDelay: nat, lookupSettle: nat)

  const DEFAULT: Config := Config(300 * SECOND, SECOND, 60 * SECOND, 10 * SECOND)

  // ---- one attempt and its classification ----

  /** The Retry-After header: missing, present but not a number of seconds, or a number. */
  datatype RetryAfter = Absent | Garbled | Seconds(secs: nat)

  datatype Reply =
    | Refused      // no connection could be made
    | Unbuildable  // the request itself could not be built
    | Broken       // any other transport error
    | Http(status: nat, retryAfter: RetryAfter, saysSecondary: bool, resetIn: Option<nat>, id: int)
  {
    predicate Success() { Http? && 200 <= status < 300 }
  }

  datatype Error = Transport | Api(status: nat) | RateLimited(resetIn: nat) | Cancelled(last: Error)

  datatype Applied = No | Unknown | Never

  datatype Failure = Failure(error: Error, applied: Applied, wait: Option<nat>)

  function RetryAfterWait(r: RetryAfter): Option<nat> {
    if r.Seconds? then Some(r.secs * SECOND) else None
  }

  function ApiError(r: Reply): Error
    requires r.Http?
  {
    if r.status == 403 && r.resetIn.Some? then RateLimited(r.resetIn.value) else Api(r.status)
  }

  /** How `write_attempt` reads an attempt that was not answered with success. */
  function Classify(r: Reply): Failure
    requires !r.Success()
  {
    match r
    case Refused => Failure(Transport, No, None)
    case Unbuildable => Failure(Transport, Never, None)
    case Broken => Failure(Transport, Unknown, None)
    case Http(status, retryAfter, saysSecondary, _, _) =>
      if status == 429 then
        Failure(ApiError(r), No, RetryAfterWait(retryAfter))
      else if status == 403 && (!retryAfter.Absent? || saysSecondary) then
        var asked := RetryAfterWait(retryAfter);
        Failure(ApiError(r), No, if asked.Some? then asked else Some(60 * SECOND))
      else if 500 <= status < 600 then
        Failure(ApiError(r), Unknown, RetryAfterWait(retryAfter))
      else
        Failure(ApiError(r), Never, None)
  }

  // ---- waits ----

  /** Half of `d` plus up to another half, from the random word `r`. */
  function Jittered(d: nat, r: nat): (w: nat)
    ensures d / 2 <= w <= d
  {
    var half := d / 2;
    var nanos := half % U64;
    half + (if nanos == 0 then 0 else r % (nanos + 1))
  }

  /** And every length of that range is drawn for some word, where half of `d` fits 64 bits. */
  lemma JitterReachesAll(d: nat, w: nat)
    requires d / 2 <= w <= d / 2 + d / 2 && d / 2 < 0x1_0000_0000_0000_0000
    ensures Jittered(d, w - d / 2) == w
  {
    var half := d / 2;
    SmallRemainder(half, U64);
    assert half % U64 == half;
    SmallRemainder(w - half, half + 1);
  }

  lemma SmallRemainder(x: nat, m: nat)
    requires x < m
    ensures x % m == x
  {
  }

  function AfterRetryAfter(d: nat, r: nat): (w: nat)
    ensures d <= w <= d + d / 4
  {
    d + Jittered(d / 4, r)
  }

  /** Past what GitHub asked for it draws every length between an eighth of that and a quarter. */
  lemma RetryAfterReachesAll(d: nat, w: nat)
    requires d + d / 4 / 2 <= w <= d + d / 4 / 2 + d / 4 / 2 && d / 4 / 2 < 0x1_0000_0000_0000_0000
    ensures AfterRetryAfter(d, w - d - d / 4 / 2) == w
  {
    JitterReachesAll(d / 4, w - d);
  }

  function Min(a: nat, b: nat): nat { if a < b then a else b }
  function Max(a: nat, b: nat): nat { if a < b then b else a }

  /** The nominal length of the `k`-th wait that no Retry-After sets. */
  function Backoff(cfg: Config, k: nat): nat {
    if k == 0 then cfg.baseDelay else Min(2 * Backoff(cfg, k - 1), cfg.maxDelay)
  }

  function Pow2(k: nat): nat { if k == 0 then 1 else 2 * Pow2(k - 1) }

  /** Doubling under the cap at every step is doubling first and capping once. */
  lemma {:induction false} BackoffDoublesUpToTheCap(cfg: Config, k: nat)
    ensures k > 0 ==> Backoff(cfg, k) == Min(cfg.baseDelay * Pow2(k), cfg.maxDelay)
    ensures k > 0 ==> Backoff(cfg, k) <= cfg.maxDelay
    ensures Backoff(cfg, k) >= Min(cfg.baseDelay, cfg.maxDelay)
  {
    if k > 0 {
      BackoffDoublesUpToTheCap(cfg, k - 1);
      TimesTwice(cfg.baseDelay, Pow2(k - 1));
      CappedTwice(if k == 1 then cfg.baseDelay else cfg.baseDelay * Pow2(k - 1), cfg.maxDelay);
    }
  }

  lemma TimesTwice(a: nat, p: nat)
    ensures a * (2 * p) == 2 * (a * p)
  {
  }

  lemma CappedTwice(b: nat, cap: nat)
    ensures Min(2 * Min(b, cap), cap) == Min(2 * b, cap)
  {
  }

  // ---- GitHub, as the write sees it ----

  /** A copy of the write on GitHub, and when lookups start to show it. */
  datatype Copy = Copy(id: int, shownAt: int)

  datatype Env = Env(
    took: nat -> nat,            // how long call n takes
    reply: nat -> Reply,         // how call n, if an attempt, is answered
    applies: nat -> bool,        // whether GitHub records the write sent as call n
    copyId: nat -> int,          // the id of the copy recorded by call n
    showDelay: nat -> int,       // from the return of call n until lookups show that copy
    lookupFails: nat -> bool,    // whether call n, if a lookup, fails
    readsAt: nat -> nat,         // how far into lookup n GitHub reads its state
    random: nat -> nat,          // the random word drawn before wait n
    cancelAt: Option<nat>,       // when the cancel token fires
    cancelWins: nat -> bool      // whether a cancel at the instant wait n ends is seen first
  )

  /** Every call takes at least a tick and at most `r`. */
  ghost predicate Timely(env: Env, r: nat) {
    forall n :: 1 <= env.took(n) <= r
  }

  /** GitHub keeps its side, told by what it answers alone: a success is a recorded copy; nothing is
      recorded of a write that was not sent or was refused with a client error; of any other, above all
      one whose reply was lost or was a server error, a copy may have been, and is shown within `lag` of
      the attempt's return. */
  ghost predicate HonestWithin(env: Env, lag: nat) {
    forall n {:trigger env.applies(n)} ::
      var r := env.reply(n);
      && (r.Http? && 200 <= r.status < 300 ==> env.applies(n) && env.copyId(n) == r.id)
      && (r.Refused? || r.Unbuildable? || (r.Http? && 400 <= r.status < 500) ==> !env.applies(n))
      && (!(r.Http? && 200 <= r.status < 300) && env.applies(n) ==> env.showDelay(n) <= lag)
  }

  /** The time the protocol allows GitHub: from the return of an attempt to the second lookup after it.
      That is a settle time, the tick that the first lookup takes, and a second settle time or half the
      shortest backoff, whichever is longer; the first wait may be one GitHub asked for. */
  function Slack(cfg: Config): nat {
    cfg.lookupSettle + 1 + Max(Min(cfg.baseDelay, cfg.maxDelay) / 2, cfg.lookupSettle)
  }

  /** In production that is twenty seconds and the tick, and a wait without Retry-After at most a minute. */
  lemma ByDefault(k: nat)
    ensures Slack(DEFAULT) == 20_000_000_001 && Backoff(DEFAULT, 0) == 1_000_000_000
    ensures k >= 6 ==> Backoff(DEFAULT, k) == 60_000_000_000
  {
    if k == 6 {
      assert Pow2(3) == 8 && Pow2(6) == 8 * Pow2(3);
    }
    if k >= 6 {
      BackoffDoublesUpToTheCap(DEFAULT, k);
      Pow2Grows(6, k);
    }
  }

  lemma {:induction false} Pow2Grows(a: nat, b: nat)
    requires a <= b
    ensures Pow2(a) <= Pow2(b)
    decreases b
  {
    if a < b {
      Pow2Grows(a, b - 1);
    }
  }

  ghost predicate Honest(env: Env, cfg: Config) {
    (forall n :: env.took(n) >= 1) && HonestWithin(env, Slack(cfg))
  }

  /** The first copy GitHub shows at `at`. */
  function Shown(held: seq<Copy>, at: int): (r: Option<int>)
    ensures r.None? <==> forall i :: 0 <= i < |held| ==> held[i].shownAt > at
    ensures r.Some? ==> exists i :: 0 <= i < |held| && held[i].shownAt <= at && held[i].id == r.value
  {
    if held == [] then None
    else if held[0].shownAt <= at then Some(held[0].id)
    else Shown(held[1..], at)
  }

  // ---- runs ----

  datatype Event =
    | Attempt(call: nat, from: nat, until: nat)
    | Lookup(call: nat, from: nat, until: nat)
    | Wait(from: nat, length: nat, cause: Cause)

  datatype Cause = AskedFor(asked: nat) | BackedOff(nominal: nat)

  datatype Outcome = Response(reply: Reply) | Found(id: int) | Failed(error: Error)

  /** What a run is given: the settings, whether a second copy could be looked up (and so must not
      be made), the environment, and when it starts. */
  datatype Job = Job(cfg: Config, hasLookup: bool, env: Env, started: nat)

  function Init(t: seq<Event>): seq<Event>
    requires t != []
  {
    t[..|t| - 1]
  }

  function Last(t: seq<Event>): Event
    requires t != []
  {
    t[|t| - 1]
  }

  /** When the last event ended. */
  function Clock(j: Job, t: seq<Event>): nat {
    if t == [] then j.started
    else match Last(t)
         case Wait(from, length, _) => from + length
         case Attempt(_, _, until) => until
         case Lookup(_, _, until) => until
  }

  function Calls(t: seq<Event>): nat {
    if t == [] then 0 else Calls(Init(t)) + (if Last(t).Wait? then 0 else 1)
  }

  /** How many waits have used the backoff. */
  function Backoffs(t: seq<Event>): nat {
    if t == [] then 0
    else Backoffs(Init(t)) + (if Last(t).Wait? && Last(t).cause.BackedOff? then 1 else 0)
  }

  /** The copies of the write GitHub holds after `t`. */
  function Copies(env: Env, t: seq<Event>): seq<Copy> {
    if t == [] then []
    else
      var e := Last(t);
      Copies(env, Init(t)) +
      if e.Attempt? && env.applies(e.call) then [Copy(env.copyId(e.call), e.until + env.showDelay(e.call))] else []
  }

  /** What lookup `e`, made after `t`, reports. */
  function Sees(env: Env, t: seq<Event>, e: Event): Option<int>
    requires e.Lookup?
  {
    if env.lookupFails(e.call) then None
    else Shown(Copies(env, t), e.from + Min(env.readsAt(e.call), env.took(e.call)))
  }

  /** How many lookups must still find nothing before the write may be sent. */
  function Owed(j: Job, t: seq<Event>): (n: nat)
    ensures n <= LOOKUPS_BEFORE_RESEND
  {
    if t == [] then 0
    else
      var n, e := Owed(j, Init(t)), Last(t);
      match e
      case Attempt(call, _, _) =>
        var reply := j.env.reply(call);
        if j.hasLookup && !reply.Success() && Classify(reply).applied.Unknown? then LOOKUPS_BEFORE_RESEND else 0
      case Lookup(call, _, _) => if n > 0 && !j.env.lookupFails(call) then n - 1 else n
      case Wait(_, _, _) => n
  }

  /** The write is done: it was answered with success, refused for good, or found. */
  predicate Settled(j: Job, t: seq<Event>) {
    t != [] &&
    match Last(t)
    case Attempt(call, _, _) =>
      j.env.reply(call).Success() || Classify(j.env.reply(call)).applied.Never?
    case Lookup(_, _, _) => Sees(j.env, Init(t), Last(t)).Some?
    case Wait(_, _, _) => false
  }

  /** Why the wait after `t` is as long as it is. */
  function CauseAfter(j: Job, t: seq<Event>): Cause
    requires t != [] && !Settled(j, t)
  {
    if Last(t).Attempt? && Classify(j.env.reply(Last(t).call)).wait.Some? then
      AskedFor(Classify(j.env.reply(Last(t).call)).wait.value)
    else
      BackedOff(Backoff(j.cfg, Backoffs(t)))
  }

  /** The lengths jitter may draw for a wait. */
  predicate Drawn(cause: Cause, w: nat) {
    match cause
    case AskedFor(d) => d <= w <= d + d / 4
    case BackedOff(b) => b / 2 <= w <= b
  }

  ghost predicate WaitAfter(j: Job, t: seq<Event>, length: nat)
    requires t != [] && !Settled(j, t)
  {
    exists w: nat :: Drawn(CauseAfter(j, t), w) && length == if Owed(j, t) > 0 then Max(w, j.cfg.lookupSettle) else w
  }

  /** The token was still silent when the wait that ends `t` ended. */
  predicate WaitedOut(j: Job, t: seq<Event>) {
    j.env.cancelAt.Some? ==> Clock(j, t) <= j.env.cancelAt.value
  }

  /** `e` may follow `t`. A wait follows a call; a lookup follows a wait when one is owed; an
      attempt comes first, or when none is owed, after a wait or the lookup that paid it off. */
  ghost predicate Next(j: Job, t: seq<Event>, e: Event) {
    && !Settled(j, t)
    && e.from == Clock(j, t)
    && (t != [] && Last(t).Wait? ==> WaitedOut(j, t))
    && match e
       case Wait(from, length, cause) =>
         && t != [] && !Last(t).Wait? && (Last(t).Lookup? ==> Owed(j, t) > 0)
         && cause == CauseAfter(j, t) && WaitAfter(j, t, length)
         && from - j.started + length <= j.cfg.deadline
       case Lookup(call, from, until) =>
         && t != [] && Last(t).Wait? && Owed(j, t) > 0
         && call == Calls(t) && until == from + j.env.took(call)
       case Attempt(call, from, until) =>
         && (t != [] ==> !Last(t).Attempt?) && Owed(j, t) == 0
         && call == Calls(t) && until == from + j.env.took(call)
  }

  /** `t` is the start of a run. */
  ghost predicate Legal(j: Job, t: seq<Event>) {
    t == [] || (Legal(j, Init(t)) && Next(j, Init(t), Last(t)))
  }

  /** The error of the last attempt in `t`. */
  function LastError(j: Job, t: seq<Event>): Option<Error> {
    if t == [] then None
    else if Last(t).Attempt? && !j.env.reply(Last(t).call).Success() then
      Some(Classify(j.env.reply(Last(t).call)).error)
    else LastError(j, Init(t))
  }

  /** Run `t` ends with `out` at `now`: with the answer or the copy found, with the error of a
      refusal, at the first wait that does not fit the deadline, or in the wait during which the
      token fires. */
  ghost predicate Ends(j: Job, t: seq<Event>, out: Outcome, now: nat) {
    && t != []
    && match out
       case Response(reply) =>
         Last(t).Attempt? && reply == j.env.reply(Last(t).call) && reply.Success() && now == Clock(j, t)
       case Found(id) =>
         Last(t).Lookup? && Sees(j.env, Init(t), Last(t)) == Some(id) && now == Clock(j, t)
       case Failed(error) =>
         if Last(t).Wait? then
           && j.env.cancelAt.Some? && j.env.cancelAt.value <= Clock(j, t)
           && now == Max(Last(t).from, j.env.cancelAt.value)
           && LastError(j, t).Some? && error == Cancelled(LastError(j, t).value)
         else
           && Some(error) == LastError(j, t) && now == Clock(j, t)
           && (Last(t).Attempt? ==> !j.env.reply(Last(t).call).Success())
           && (Last(t).Lookup? ==> Sees(j.env, Init(t), Last(t)).None?)
           && (!Settled(j, t) ==>
                exists length: nat :: WaitAfter(j, t, length) && now - j.started + length > j.cfg.deadline)
  }

  /** A run ends in one way only. */
  lemma OneOutcome(j: Job, t: seq<Event>, a: Outcome, aNow: nat, b: Outcome, bNow: nat)
    requires Ends(j, t, a, aNow) && Ends(j, t, b, bNow)
    ensures a == b && aNow == bNow
  {
  }

  /** What an attempt's reply makes of the run, told by the reply alone: which replies settle it, which
      say that the write may have landed and so owe lookups, what wait they ask for, and their error. */
  lemma RepliesAreRead(j: Job, t: seq<Event>, r: Reply)
    requires t != [] && Last(t).Attempt? && r == j.env.reply(Last(t).call)
    ensures r.Success() <==> r.Http? && 200 <= r.status < 300
    ensures Settled(j, t) <==> match r
      case Refused => false
      case Broken => false
      case Unbuildable => true
      case Http(status, retryAfter, saysSecondary, _, _) =>
        !(500 <= status < 600) && status != 429 && !(status == 403 && (retryAfter != Absent || saysSecondary))
    ensures Owed(j, t) == if j.hasLookup && (r == Broken || (r.Http? && 500 <= r.status < 600)) then 2 else 0
    ensures !Settled(j, t) && r.Http? && r.retryAfter.Seconds? ==>
      CauseAfter(j, t) == AskedFor(r.retryAfter.secs * 1_000_000_000)
    ensures !Settled(j, t) && r.Http? && r.status == 403 && !r.retryAfter.Seconds? ==>
      CauseAfter(j, t) == AskedFor(60_000_000_000)
    ensures !Settled(j, t) && !(r.Http? && (r.retryAfter.Seconds? || r.status == 403)) ==>
      CauseAfter(j, t) == BackedOff(Backoff(j.cfg, Backoffs(t)))
    ensures !r.Http? ==> LastError(j, t) == Some(Transport)
    ensures r.Http? && !(200 <= r.status < 300) ==>
      var limited := r.status == 403 && r.resetIn.Some?;
      LastError(j, t) == Some(if limited then RateLimited(r.resetIn.value) else Api(r.status))
  {
  }

  /** A run fails only for a reply that says so for good, by its token, or because the wait the last call
      asks for, `longest` at most, does not fit the deadline. */
  lemma FailsOnlyFor(j: Job, t: seq<Event>, error: Error, now: nat) returns (longest: nat)
    requires Ends(j, t, Failed(error), now)
    ensures || (Last(t).Attempt? && match j.env.reply(Last(t).call)
                case Unbuildable => true
                case Http(status, retryAfter, saysSecondary, _, _) =>
                  !(500 <= status < 600) && status != 429 && !(status == 403 && (retryAfter != Absent || saysSecondary))
                case _ => false)
            || (Last(t).Wait? && j.env.cancelAt.Some? && j.env.cancelAt.value <= now && error.Cancelled?)
            || now - j.started + longest > j.cfg.deadline
    ensures t != [] && !Settled(j, t) && !Last(t).Wait? ==> longest == Max(
      match CauseAfter(j, t) case AskedFor(d) => d + d / 4 case BackedOff(b) => b,
      if Owed(j, t) > 0 then j.cfg.lookupSettle else 0)
  {
    longest := 0;
    if !Settled(j, t) && !Last(t).Wait? {
      longest := Max(
        match CauseAfter(j, t) case AskedFor(d) => d + d / 4 case BackedOff(b) => b,
        if Owed(j, t) > 0 then j.cfg.lookupSettle else 0);
      var length: nat :| WaitAfter(j, t, length) && now - j.started + length > j.cfg.deadline;
      assert length <= longest;
    }
  }

  lemma Snoc(t: seq<Event>, e: Event)
    ensures Init(t + [e]) == t && Last(t + [e]) == e
  {
  }

  /** What a run is after one wait more. */
  lemma OneWaitMore(j: Job, t: seq<Event>, e: Event)
    requires Legal(j, t) && e.Wait? && Next(j, t, e)
    ensures Legal(j, t + [e]) && Init(t + [e]) == t && Last(t + [e]) == e && !Settled(j, t + [e])
    ensures Clock(j, t + [e]) == e.from + e.length && Owed(j, t + [e]) == Owed(j, t) && Calls(t + [e]) == Calls(t)
    ensures Copies(j.env, t + [e]) == Copies(j.env, t) && LastError(j, t + [e]) == LastError(j, t)
    ensures Backoffs(t + [e]) == Backoffs(t) + if e.cause.BackedOff? then 1 else 0
  {
    Snoc(t, e);
  }

  // ---- what every run keeps ----

  /** Only the last event of a run can settle it, and its last failed attempt is on record. */
  lemma {:induction false} OneEnd(j: Job, t: seq<Event>)
    requires Legal(j, t) && t != [] && !Settled(j, t)
    ensures LastError(j, t).Some?
  {
    if !Last(t).Attempt? {
      assert Init(t) != [];
      OneEnd(j, Init(t));
    }
  }

  /** Time passes only so far: every wait ends by the deadline, and at most a lookup and an attempt
      follow the last one. */
  lemma {:induction false} ClockBound(j: Job, t: seq<Event>, r: nat)
    requires Legal(j, t) && Timely(j.env, r)
    ensures j.started <= Clock(j, t) <= j.started + j.cfg.deadline + 2 * r
    ensures t == [] || Last(t).Wait? ==> Clock(j, t) <= j.started + j.cfg.deadline
    ensures t != [] && Last(t).Lookup? ==> Clock(j, t) <= j.started + j.cfg.deadline + r
  {
    if t != [] {
      ClockBound(j, Init(t), r);
      if !Last(t).Wait? {
        assert 1 <= j.env.took(Last(t).call) <= r;
      }
    }
  }

  /** Each call takes a tick of a bounded time, so a run makes boundedly many. */
  lemma {:induction false} CallBound(j: Job, t: seq<Event>, r: nat)
    requires Legal(j, t) && Timely(j.env, r)
    ensures Calls(t) <= Clock(j, t) - j.started <= j.cfg.deadline + 2 * r
    ensures |t| <= 2 * Calls(t)
    ensures t != [] && !Last(t).Wait? ==> |t| < 2 * Calls(t)
  {
    ClockBound(j, t, r);
    if t != [] {
      CallBound(j, Init(t), r);
      if !Last(t).Wait? {
        assert 1 <= j.env.took(Last(t).call) <= r;
      }
    }
  }

  /** Every lookup has been waited for: the settle time at least, and out of a wait that the
      deadline allowed. */
  lemma {:induction false} LookupsSettle(j: Job, t: seq<Event>)
    requires Legal(j, t) && t != [] && Last(t).Lookup?
    ensures |t| >= 2 && Last(Init(t)).Wait?
    ensures j.cfg.lookupSettle <= Last(Init(t)).length
    ensures Last(t).from == Last(Init(t)).from + Last(Init(t)).length <= j.started + j.cfg.deadline
  {
    var w := Init(t);
    assert Next(j, Init(w), Last(w));
    assert WaitAfter(j, Init(w), Last(w).length);
  }

  /** A wait follows the clock's own rule: a fixed fraction of what was asked for or of the capped
      doubling, or the settle time where a lookup follows and that is longer. */
  lemma {:induction false} WaitLengths(j: Job, t: seq<Event>)
    requires Legal(j, t) && t != [] && Last(t).Wait?
    ensures var settle := if Owed(j, Init(t)) > 0 then j.cfg.lookupSettle else 0;
      match Last(t).cause
      case AskedFor(d) => Max(d, settle) <= Last(t).length <= Max(d + d / 4, settle)
      case BackedOff(b) =>
        && b == Backoff(j.cfg, Backoffs(Init(t))) && b <= Max(j.cfg.baseDelay, j.cfg.maxDelay)
        && Max(b / 2, settle) <= Last(t).length <= Max(b, settle)
  {
    assert WaitAfter(j, Init(t), Last(t).length);
    BackoffDoublesUpToTheCap(j.cfg, Backoffs(Init(t)));
  }

  /** Once the token has fired the write is sent at most once more, and then only out of a lookup
      that was under way: `r` bounds how late. The first attempt looks at no token. */
  lemma {:induction false} CancelStopsResending(j: Job, t: seq<Event>, r: nat)
    requires Legal(j, t) && Timely(j.env, r)
    requires |t| > 1 && Last(t).Attempt? && j.env.cancelAt.Some?
    ensures Last(t).from <= j.env.cancelAt.value + r
    ensures Last(Init(t)).Wait? ==> Last(t).from <= j.env.cancelAt.value
  {
    var p := Init(t);
    if Last(p).Lookup? {
      assert Next(j, Init(p), Last(p));
      assert j.env.took(Last(p).call) <= r;
    }
  }

  // ---- no duplicates ----

  /** When the last attempt of `t` returned. */
  function LastTry(j: Job, t: seq<Event>): nat {
    if t == [] then j.started
    else if Last(t).Attempt? then Last(t).until
    else LastTry(j, Init(t))
  }

  /** The heart of the protocol: while lookups are owed, each has been waited for, so by the time
      none is owed every copy would have been seen, and there is none. */
  lemma {:induction false} CleanBeforeResend(j: Job, t: seq<Event>)
    requires Legal(j, t) && j.hasLookup && Honest(j.env, j.cfg) && !Settled(j, t)
    ensures Owed(j, t) == 0 ==> Copies(j.env, t) == []
    ensures Owed(j, t) > 0 ==> |Copies(j.env, t)| <= 1
    ensures forall c :: c in Copies(j.env, t) ==> c.shownAt <= LastTry(j, t) + Slack(j.cfg)
    ensures LastTry(j, t) + (if Owed(j, t) == 1 then j.cfg.lookupSettle + 1 else 0) <= Clock(j, t)
    ensures t != [] && Last(t).Wait? && Owed(j, t) == 2 ==> LastTry(j, t) + j.cfg.lookupSettle <= Clock(j, t)
    ensures t != [] && Last(t).Wait? && Owed(j, t) == 1 ==> LastTry(j, t) + Slack(j.cfg) <= Clock(j, t)
  {
    if t != [] {
      var p, e := Init(t), Last(t);
      CleanBeforeResend(j, p);
      if e.Attempt? {
        assert j.env.applies(e.call) || !j.env.applies(e.call);
      } else if e.Wait? {
        assert WaitAfter(j, p, e.length);
        BackoffDoublesUpToTheCap(j.cfg, Backoffs(p));
      }
    }
  }

  /** GitHub never holds two copies of a write that can be looked up, however the run goes. */
  lemma {:induction false} AtMostOneCopy(j: Job, t: seq<Event>)
    requires Legal(j, t) && j.hasLookup && Honest(j.env, j.cfg)
    ensures |Copies(j.env, t)| <= 1
  {
    if t != [] {
      var p, e := Init(t), Last(t);
      if e.Attempt? {
        CleanBeforeResend(j, p);
      } else {
        AtMostOneCopy(j, p);
      }
    }
  }

  /** A run that succeeds leaves exactly one copy, and returns its id. */
  lemma SuccessIsTheOneCopy(j: Job, t: seq<Event>, out: Outcome, now: nat)
    requires Legal(j, t) && j.hasLookup && Honest(j.env, j.cfg)
    requires Ends(j, t, out, now) && !out.Failed?
    ensures |Copies(j.env, t)| == 1
    ensures out.Response? ==> out.reply.Success() && Copies(j.env, t)[0].id == out.reply.id
    ensures out.Found? ==> Copies(j.env, t)[0].id == out.id
  {
    AtMostOneCopy(j, t);
    if out.Response? {
      CleanBeforeResend(j, Init(t));
      assert j.env.applies(Last(t).call);
    } else {
      AtMostOneCopy(j, Init(t));
    }
  }

  /** An environment in which call `tried` fails but is recorded, and shown `lag` later, and whatever
      comes before is refused. */
  function LateEnv(lag: nat, tried: nat): Env {
    var created := Http(201, Absent, false, None, 7);
    var busy := Http(503, Seconds(0), false, None, 0);
    Env(n => 1, n => if n < tried then Refused else if n == tried then busy else created, n => n >= tried, n => 7,
        n => lag, n => false, n => 0, n => 0, None, n => false)
  }

  lemma LateEnvIsHonest(lag: nat, tried: nat)
    ensures Timely(LateEnv(lag, tried), 1) && HonestWithin(LateEnv(lag, tried), lag)
    ensures Late(LateEnv(lag, tried), tried, lag)
  {
  }

  /** When the resend of a run that wastes no time begins: the attempt, the slack, and before them, if
      the base delay is above the cap, an attempt refused to bring the backoff down to the cap. */
  function SoonestResend(cfg: Config): nat {
    Slack(cfg) + 1 + if cfg.baseDelay <= cfg.maxDelay then 0 else 1 + cfg.baseDelay / 2
  }

  /** That is all it allows: with any longer lag, if the deadline leaves room for a resend, there is a
      run that leaves two copies. */
  lemma LateCopyIsDuplicated(cfg: Config, lag: nat) returns (j: Job, t: seq<Event>)
    requires lag > Slack(cfg) && SoonestResend(cfg) <= cfg.deadline
    ensures j.cfg == cfg && j.hasLookup && Timely(j.env, 1) && HonestWithin(j.env, lag)
    ensures Legal(j, t) && |Copies(j.env, t)| == 2
  {
    if cfg.baseDelay <= cfg.maxDelay {
      LateEnvIsHonest(lag, 0);
      j, t := Job(cfg, true, LateEnv(lag, 0), 0), [];
    } else {
      LateEnvIsHonest(lag, 1);
      j := Job(cfg, true, LateEnv(lag, 1), 0);
      t := RefusedFirst(j, []);
    }
    t := TryTwice(j, t, lag);
  }

  /** A first attempt that is refused, and the shortest wait after it. */
  lemma RefusedFirst(j: Job, none: seq<Event>) returns (t: seq<Event>)
    requires none == [] && j.env.took(0) == 1 && j.env.reply(0) == Refused && !j.env.applies(0) && j.env.cancelAt.None?
    requires 1 + j.cfg.baseDelay / 2 <= j.cfg.deadline
    ensures Legal(j, t) && t != [] && Last(t).Wait? && !Settled(j, t) && Owed(j, t) == 0
    ensures Clock(j, t) == j.started + 1 + j.cfg.baseDelay / 2
    ensures Calls(t) == 1 && Backoffs(t) == 1 && Copies(j.env, t) == []
  {
    var e := Attempt(0, j.started, j.started + 1);
    Snoc(none, e);
    var u := none + [e];
    assert Next(j, none, e);
    t := ShortestWait(j, u);
  }

  lemma ShortestWait(j: Job, t: seq<Event>) returns (t': seq<Event>)
    requires Legal(j, t) && t != [] && Last(t).Attempt? && !Settled(j, t) && Owed(j, t) == 0
    requires CauseAfter(j, t).BackedOff?
    requires Clock(j, t) - j.started + Backoff(j.cfg, Backoffs(t)) / 2 <= j.cfg.deadline
    ensures Legal(j, t') && t' != [] && Last(t').Wait? && !Settled(j, t') && Owed(j, t') == 0
    ensures Clock(j, t') == Clock(j, t) + Backoff(j.cfg, Backoffs(t)) / 2
    ensures Calls(t') == Calls(t) && Backoffs(t') == Backoffs(t) + 1 && Copies(j.env, t') == Copies(j.env, t)
  {
    var w := Wait(Clock(j, t), Backoff(j.cfg, Backoffs(t)) / 2, CauseAfter(j, t));
    assert Drawn(CauseAfter(j, t), w.length) && WaitAfter(j, t, w.length);
    OneWaitMore(j, t, w);
    t' := t + [w];
  }

  /** Call `n` is answered with a server error that asks for no wait, and is recorded but shown only
      `lag` later; the calls after it are quick, and so is every lookup. */
  ghost predicate Late(env: Env, n: nat, lag: nat) {
    && env.reply(n) == Http(503, Seconds(0), false, None, 0) && env.showDelay(n) == lag && env.cancelAt.None?
    && (forall k: nat {:trigger env.took(k)} :: env.took(k) == 1)
    && (forall k: nat {:trigger env.applies(k)} :: k >= n ==> env.applies(k))
    && (forall k: nat {:trigger env.lookupFails(k)} :: !env.lookupFails(k) && env.readsAt(k) == 0)
  }

  /** An attempt that is recorded late. */
  lemma LateAttempt(j: Job, t: seq<Event>, lag: nat) returns (u: seq<Event>)
    requires Legal(j, t) && !Settled(j, t) && Owed(j, t) == 0 && Copies(j.env, t) == [] && j.hasLookup
    requires t == [] || (Last(t).Wait? && WaitedOut(j, t))
    requires Late(j.env, Calls(t), lag)
    ensures Legal(j, u) && u != [] && Last(u).Attempt? && !Settled(j, u) && CauseAfter(j, u) == AskedFor(0)
    ensures Owed(j, u) == LOOKUPS_BEFORE_RESEND && Clock(j, u) == Clock(j, t) + 1
    ensures Calls(u) == Calls(t) + 1 && Backoffs(u) == Backoffs(t)
    ensures Copies(j.env, u) == [Copy(j.env.copyId(Calls(t)), Clock(j, u) + lag)]
  {
    var e := Attempt(Calls(t), Clock(j, t), Clock(j, t) + 1);
    Snoc(t, e);
    u := t + [e];
    assert j.env.took(Calls(t)) == 1 && Next(j, t, e);
    assert j.env.applies(Calls(t));
    assert Copies(j.env, u) == Copies(j.env, t) + [Copy(j.env.copyId(Calls(t)), e.until + lag)];
  }

  /** An attempt that is recorded late, two lookups as soon as they may be, and the resend. */
  lemma TryTwice(j: Job, t: seq<Event>, lag: nat) returns (t': seq<Event>)
    requires Legal(j, t) && !Settled(j, t) && Owed(j, t) == 0 && Copies(j.env, t) == [] && j.hasLookup
    requires t == [] || (Last(t).Wait? && WaitedOut(j, t))
    requires lag > Slack(j.cfg) && Late(j.env, Calls(t), lag)
    requires Backoff(j.cfg, Backoffs(t)) == Min(j.cfg.baseDelay, j.cfg.maxDelay)
    requires Clock(j, t) - j.started + 1 + Slack(j.cfg) <= j.cfg.deadline
    ensures Legal(j, t') && |Copies(j.env, t')| == 2
  {
    t' := LateAttempt(j, t, lag);
    var half := Min(j.cfg.baseDelay, j.cfg.maxDelay) / 2;
    t' := LookTwice(j, t', half, Max(half, j.cfg.lookupSettle));
    t' := Resend(j, t');
  }

  lemma LookTwice(j: Job, t: seq<Event>, half: nat, second: nat) returns (t': seq<Event>)
    requires Legal(j, t) && t != [] && !Settled(j, t) && Last(t).Attempt? && Owed(j, t) == 2
    requires CauseAfter(j, t) == AskedFor(0) && half == Backoff(j.cfg, Backoffs(t)) / 2
    requires second == Max(half, j.cfg.lookupSettle)
    requires Clock(j, t) - j.started + j.cfg.lookupSettle + 1 + second <= j.cfg.deadline
    requires forall k: nat {:trigger j.env.took(k)} :: j.env.took(k) == 1
    requires j.env.cancelAt.None?
    requires forall k: nat {:trigger j.env.lookupFails(k)} :: !j.env.lookupFails(k) && j.env.readsAt(k) == 0
    requires forall c :: c in Copies(j.env, t) ==> c.shownAt > Clock(j, t) + j.cfg.lookupSettle + 1 + second
    ensures Legal(j, t') && t' != [] && !Settled(j, t') && Last(t').Lookup? && Owed(j, t') == 0
    ensures Copies(j.env, t') == Copies(j.env, t) && Calls(t') == Calls(t) + 2
  {
    assert !j.env.lookupFails(Calls(t)) && j.env.took(Calls(t)) == 1;
    t' := WaitAndLookUp(j, t, 0);
    assert !j.env.lookupFails(Calls(t')) && j.env.took(Calls(t')) == 1;
    t' := WaitAndLookUp(j, t', half);
  }

  lemma Resend(j: Job, t: seq<Event>) returns (t': seq<Event>)
    requires Legal(j, t) && t != [] && !Settled(j, t) && Last(t).Lookup? && Owed(j, t) == 0
    requires j.env.applies(Calls(t))
    ensures Legal(j, t') && |Copies(j.env, t')| == |Copies(j.env, t)| + 1
  {
    var e := Attempt(Calls(t), Clock(j, t), Clock(j, t) + j.env.took(Calls(t)));
    Snoc(t, e);
    t' := t + [e];
  }

  /** A wait of a length that may be drawn, and an instant lookup too early to see anything. */
  lemma WaitAndLookUp(j: Job, t: seq<Event>, drawn: nat) returns (t': seq<Event>)
    requires Legal(j, t) && t != [] && !Settled(j, t) && !Last(t).Wait? && Owed(j, t) > 0
    requires Drawn(CauseAfter(j, t), drawn)
    requires Clock(j, t) - j.started + Max(drawn, j.cfg.lookupSettle) <= j.cfg.deadline
    requires j.env.cancelAt.None? && !j.env.lookupFails(Calls(t)) && j.env.readsAt(Calls(t)) == 0
    requires forall c :: c in Copies(j.env, t) ==> c.shownAt > Clock(j, t) + Max(drawn, j.cfg.lookupSettle)
    ensures Legal(j, t') && t' != [] && !Settled(j, t') && Last(t').Lookup?
    ensures Copies(j.env, t') == Copies(j.env, t) && Owed(j, t') == Owed(j, t) - 1
    ensures Calls(t') == Calls(t) + 1
    ensures Clock(j, t') == Clock(j, t) + Max(drawn, j.cfg.lookupSettle) + j.env.took(Calls(t))
    ensures Backoffs(t') == Backoffs(t) + if CauseAfter(j, t).BackedOff? then 1 else 0
  {
    var length := Max(drawn, j.cfg.lookupSettle);
    var w := Wait(Clock(j, t), length, CauseAfter(j, t));
    assert WaitAfter(j, t, length);
    OneWaitMore(j, t, w);
    var u := t + [w];
    var e := Lookup(Calls(t), w.from + length, w.from + length + j.env.took(Calls(t)));
    Snoc(u, e);
    t' := u + [e];
  }

  // ---- the loop ----

  /** The length of the wait after `t`, and the backoff after that. */
  method PlanWait(j: Job, ghost t: seq<Event>, asked: Option<nat>, owed: nat, backoff: nat, random: nat)
    returns (wait: nat, cause: Cause, next: nat)
    requires t != [] && !Settled(j, t) && owed == Owed(j, t) && backoff == Backoff(j.cfg, Backoffs(t))
    requires asked == if Last(t).Attempt? then Classify(j.env.reply(Last(t).call)).wait else None
    ensures cause == CauseAfter(j, t) && WaitAfter(j, t, wait)
    ensures next == Backoff(j.cfg, Backoffs(t) + if cause.BackedOff? then 1 else 0)
  {
    next := backoff;
    if asked.Some? {
      wait, cause := AfterRetryAfter(asked.value, random), AskedFor(asked.value);
    } else {
      wait, cause := Jittered(backoff, random), BackedOff(backoff);
      next := Min(2 * backoff, j.cfg.maxDelay);
    }
    assert Drawn(CauseAfter(j, t), wait);
    if owed > 0 {
      wait := Max(wait, j.cfg.lookupSettle);
    }
  }

  /** One lookup of whether the write landed, when one is owed. */
  method LookUp(j: Job, trace: seq<Event>, held: seq<Copy>, calls: nat, owed: nat, now: nat)
    returns (seen: Option<int>, stillOwed: nat, t: seq<Event>, later: nat)
    requires Legal(j, trace) && !Settled(j, trace) && trace != [] && Last(trace).Wait? && WaitedOut(j, trace)
    requires held == Copies(j.env, trace) && owed == Owed(j, trace) > 0
    requires calls == Calls(trace) && now == Clock(j, trace)
    ensures Legal(j, t) && t != [] && Last(t).Lookup? && Init(t) == trace
    ensures later == Clock(j, t) == now + j.env.took(calls)
    ensures seen == Sees(j.env, trace, Last(t)) && (seen.None? ==> !Settled(j, t) && stillOwed == Owed(j, t))
    ensures stillOwed == if j.env.lookupFails(calls) then owed else owed - 1
    ensures Copies(j.env, t) == held && Calls(t) == calls + 1
    ensures LastError(j, t) == LastError(j, trace) && Backoffs(t) == Backoffs(trace)
  {
    var e := Lookup(calls, now, now + j.env.took(calls));
    Snoc(trace, e);
    t, later, seen, stillOwed := trace + [e], e.until, None, owed;
    if !j.env.lookupFails(calls) {
      seen := Shown(held, e.from + Min(j.env.readsAt(calls), j.env.took(calls)));
      stillOwed := owed - 1;
    }
  }

  /** One attempt at the write. */
  method WriteAttempt(j: Job, trace: seq<Event>, held: seq<Copy>, calls: nat, now: nat)
    returns (reply: Reply, copies: seq<Copy>, t: seq<Event>, later: nat)
    requires Legal(j, trace) && !Settled(j, trace) && Owed(j, trace) == 0
    requires trace != [] ==> !Last(trace).Attempt? && (Last(trace).Wait? ==> WaitedOut(j, trace))
    requires held == Copies(j.env, trace) && calls == Calls(trace) && now == Clock(j, trace)
    ensures Legal(j, t) && t != [] && Init(t) == trace && Last(t) == Attempt(calls, now, later)
    ensures reply == j.env.reply(calls) && later == now + j.env.took(calls)
    ensures copies == Copies(j.env, t) && Calls(t) == calls + 1 && Backoffs(t) == Backoffs(trace)
    ensures reply.Http? && 200 <= reply.status < 300 ==> Ends(j, t, Response(reply), later)
    ensures !reply.Success() ==>
      var f := Classify(reply);
      && LastError(j, t) == Some(f.error) && (Settled(j, t) <==> f.applied.Never?)
      && (f.applied.Never? ==> Ends(j, t, Failed(f.error), later))
      && Owed(j, t) == if j.hasLookup && f.applied.Unknown? then LOOKUPS_BEFORE_RESEND else 0
  {
    var e := Attempt(calls, now, now + j.env.took(calls));
    Snoc(trace, e);
    t, later, reply, copies := trace + [e], e.until, j.env.reply(calls), held;
    if j.env.applies(calls) {
      copies := held + [Copy(j.env.copyId(calls), e.until + j.env.showDelay(calls))];
    }
  }

  /** What is left of the run when `t` ends at a call that settled nothing: the wait is started,
      and slept out or cut short. */
  method Sleep(j: Job, t: seq<Event>, asked: Option<nat>, owed: nat, backoff: nat, waits: nat,
               last: Error, now: nat)
    returns (out: Option<Outcome>, t': seq<Event>, later: nat, next: nat)
    requires Legal(j, t) && t != [] && !Settled(j, t) && !Last(t).Wait? && (Last(t).Lookup? ==> owed > 0)
    requires owed == Owed(j, t) && backoff == Backoff(j.cfg, Backoffs(t))
    requires Some(last) == LastError(j, t) && now == Clock(j, t) >= j.started
    requires asked == if Last(t).Attempt? then Classify(j.env.reply(Last(t).call)).wait else None
    ensures t' == t || (t' != [] && Init(t') == t && Last(t').Wait?)
    ensures Legal(j, t') && Copies(j.env, t') == Copies(j.env, t)
    ensures out.Some? ==> Ends(j, t', out.value, later) && later <= Clock(j, t')
    ensures out.None? ==>
      && t' != t && WaitedOut(j, t') && later == Clock(j, t')
      && now <= later <= j.started + j.cfg.deadline
      && Calls(t') == Calls(t) && Owed(j, t') == owed && LastError(j, t') == Some(last)
      && next == Backoff(j.cfg, Backoffs(t'))
  {
    var wait, cause, next' := PlanWait(j, t, asked, owed, backoff, j.env.random(waits));
    t', next := t, next';
    if now - j.started + wait > j.cfg.deadline {
      return Some(Failed(last)), t', now, next;
    }
    var w := Wait(now, wait, cause);
    OneWaitMore(j, t, w);
    t' := t + [w];
    later := now + wait;
    var wins := later + if j.env.cancelWins(waits) then 1 else 0;
    if j.env.cancelAt.Some? && j.env.cancelAt.value < wins {
      out, later := Some(Failed(Cancelled(last))), Max(now, j.env.cancelAt.value);
    } else {
      out := None;
    }
  }

  method Write(j: Job, ghost r: nat) returns (out: Outcome, now: nat, held: seq<Copy>, trace: seq<Event>)
    requires Timely(j.env, r)
    ensures Legal(j, trace) && Ends(j, trace, out, now)
    ensures held == Copies(j.env, trace)
    ensures now <= j.started + j.cfg.deadline + 2 * r
  {
    now, held, trace := j.started, [], [];
    var backoff := j.cfg.baseDelay;
    var last: Option<Error> := None;
    var owed := 0;
    var calls, waits := 0, 0;
    while true
      invariant Legal(j, trace) && !Settled(j, trace) && now == Clock(j, trace)
      invariant held == Copies(j.env, trace) && owed == Owed(j, trace) && calls == Calls(trace)
      invariant last == LastError(j, trace) && backoff == Backoff(j.cfg, Backoffs(trace))
      invariant if last.None? then trace == [] else trace != [] && Last(trace).Wait? && WaitedOut(j, trace)
      invariant j.started <= now <= j.started + j.cfg.deadline
      decreases j.started + j.cfg.deadline - now
    {
      var asked: Option<nat> := None;
      if owed > 0 {
        var seen;
        seen, owed, trace, now := LookUp(j, trace, held, calls, owed, now);
        ClockBound(j, trace, r);
        if seen.Some? {
          return Found(seen.value), now, held, trace;
        }
        calls := calls + 1;
      }
      if owed == 0 {
        var reply;
        reply, held, trace, now := WriteAttempt(j, trace, held, calls, now);
        ClockBound(j, trace, r);
        if reply.Success() {
          return Response(reply), now, held, trace;
        }
        var f := Classify(reply);
        if f.applied.Never? {
          return Failed(f.error), now, held, trace;
        }
        if f.applied.Unknown? && j.hasLookup {
          owed := LOOKUPS_BEFORE_RESEND;
        }
        asked, last, calls := f.wait, Some(f.error), calls + 1;
      }
      var ended, next;
      ended, trace, now, next := Sleep(j, trace, asked, owed, backoff, waits, last.value, now);
      ClockBound(j, trace, r);
      if ended.Some? {
        return ended.value, now, held, trace;
      }
      waits, backoff := waits + 1, next;
    }
  }
}
