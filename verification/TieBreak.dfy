/** The time budget of the tie-break in src/checker/multi_review/mod.rs: when Other Other Barry's
    review must stop, and that a post begun in time is over before the checker's own timeout. */
module TieBreak {
  import opened Options
  import opened WriteRetry

  const REQUEST: nat := 30 * SECOND
  const THIRTY_YEARS: nat := 30 * 365 * 86_400 * SECOND

  /** The time kept back for posting: the write's own deadline and seven requests. */
  const POST_RESERVE: nat := DEFAULT.deadline + 7 * REQUEST

  datatype Deadlines = Deadlines(review: nat, checker: nat, postReserve: nat) {
    predicate TimeToPost(now: nat) { now + postReserve <= checker }
  }

  /** The deadlines of a checker started at `start`, on a clock that ends at `clockEnd`. */
  function NewDeadlines(start: nat, timeout: nat, postReserve: nat, clockEnd: nat): Deadlines {
    var checker := if start + timeout <= clockEnd then start + timeout else start + THIRTY_YEARS;
    var keptBack := Max(postReserve, (checker - start) / 10);
    Deadlines(Max(if keptBack <= checker then checker - keptBack else start, start), checker, postReserve)
  }

  /** The review deadline lies in the checker's window, at its end less the reserve or a tenth,
      whichever is more; it is clipped to the start exactly when that leaves nothing. */
  lemma ReviewWindow(start: nat, timeout: nat, postReserve: nat, clockEnd: nat)
    ensures var d := NewDeadlines(start, timeout, postReserve, clockEnd);
      var length := d.checker - start;
      && start <= d.review <= d.checker
      && (d.review > start <==> postReserve < length)
      && (d.review > start ==> d.review == d.checker - Max(postReserve, length / 10))
      && length == (if start + timeout <= clockEnd then timeout else 30 * 365 * 86_400 * 1_000_000_000)
  {
    var d := NewDeadlines(start, timeout, postReserve, clockEnd);
    assert (d.checker - start) / 10 <= d.checker - start;
  }

  /** A tie-break that is let start, and whose review is done by the review deadline, always has
      the reserve left to post it in. */
  lemma DoneInTimeCanPost(start: nat, timeout: nat, postReserve: nat, clockEnd: nat, begun: nat, done: nat)
    requires start <= begun < NewDeadlines(start, timeout, postReserve, clockEnd).review
    requires done <= NewDeadlines(start, timeout, postReserve, clockEnd).review
    ensures NewDeadlines(start, timeout, postReserve, clockEnd).TimeToPost(done)
  {
    ReviewWindow(start, timeout, postReserve, clockEnd);
  }

  // ---- one tie-break ----

  /** What the review phase gives: nothing to do (not installed, or the head moved), a failure, or
      a review. */
  datatype Phase = Nothing | Trouble | Reviewed

  /** What a tie-break meets. A client costs up to two requests, an installation lookup and a token
      mint, both free when cached. */
  datatype Meets = Meets(
    phase: Phase, phaseTook: nat,
    barryLookup: nat, barryMint: nat, barryClient: bool,
    headTook: nat, headCurrent: bool,
    oobLookup: nat, oobMint: nat, oobClient: bool,
    write: Env)

  ghost predicate WithinBudget(m: Meets, r: nat) {
    && m.barryLookup <= r && m.barryMint <= r && m.headTook <= r
    && m.oobLookup <= r && m.oobMint <= r && Timely(m.write, r)
  }

  datatype Result = Stood | TimedOut | FailedTo | Decided

  /** When the post of a review, done at `begun + m.phaseTook`, is sent. */
  function SentAt(m: Meets, begun: nat): nat {
    begun + m.phaseTook + m.barryLookup + m.barryMint + (if m.barryClient then m.headTook else 0)
    + m.oobLookup + m.oobMint
  }

  /** `break_tie`, by the clock. `held` is what GitHub holds of the tie-break's review, and `wrote` how the
      write of it ended, if it was sent, after the run `t`. */
  method BreakTie(d: Deadlines, cfg: Config, m: Meets, ghost r: nat, begun: nat)
    returns (result: Result, end: nat, held: seq<Copy>, ghost wrote: Option<Outcome>, ghost t: seq<Event>)
    requires WithinBudget(m, r)
    requires d.review <= d.checker
    ensures result == TimedOut <==>
      begun >= d.review || begun + m.phaseTook > d.review || (m.phase.Reviewed? && !d.TimeToPost(begun + m.phaseTook))
    // Else it is decided exactly if there is a review, the head is not seen to have moved, and the write of
    // it is sent and ends well; and it stands if there is nothing to do or the head moved.
    ensures result == Decided <==> wrote.Some? && !wrote.value.Failed?
    ensures wrote.Some? <==>
      result != TimedOut && m.phase.Reviewed? && (m.headCurrent || !m.barryClient) && m.oobClient
    ensures wrote.Some? ==>
      var job := Job(cfg, true, m.write, SentAt(m, begun));
      Legal(job, t) && Ends(job, t, wrote.value, end) && held == Copies(m.write, t)
    ensures wrote.None? ==> held == []
    ensures result == Stood <==>
      result != TimedOut && (m.phase.Nothing? || (m.phase.Reviewed? && m.barryClient && !m.headCurrent))
    ensures begun >= d.review ==> end == begun
    ensures begun < d.review && d.postReserve >= cfg.deadline + 7 * r ==> end <= d.checker
    ensures result == TimedOut ==> end <= Max(begun, d.checker) && held == []
    ensures result == Stood ==> held == []
    ensures Honest(m.write, cfg) ==>
      |held| <= 1 && (result == Decided ==> |held| == 1)
    ensures result == Decided ==>
      m.phase.Reviewed? && d.TimeToPost(begun + m.phaseTook) && (m.headCurrent || !m.barryClient)
  {
    wrote, t, held := None, [], [];
    if begun >= d.review {
      return TimedOut, begun, held, wrote, t;
    }
    if begun + m.phaseTook > d.review {
      return TimedOut, d.review, held, wrote, t;
    }
    var now := begun + m.phaseTook;
    match m.phase {
      case Nothing => return Stood, now, held, wrote, t;
      case Trouble => return FailedTo, now, held, wrote, t;
      case Reviewed =>
    }
    if !d.TimeToPost(now) {
      return TimedOut, now, held, wrote, t;
    }
    // A head that cannot be asked for counts as current.
    now := now + m.barryLookup + m.barryMint;
    if m.barryClient {
      now := now + m.headTook;
      if !m.headCurrent {
        return Stood, now, held, wrote, t;
      }
    }
    now := now + m.oobLookup + m.oobMint;
    if !m.oobClient {
      return FailedTo, now, held, wrote, t;
    }
    var job := Job(cfg, true, m.write, now);
    var out, after, copies, trace := Write(job, r);
    wrote, t := Some(out), trace;
    if Honest(m.write, cfg) {
      AtMostOneCopy(job, t);
      if !out.Failed? {
        SuccessIsTheOneCopy(job, t, out, after);
      }
    }
    return if out.Failed? then FailedTo else Decided, after, copies, wrote, t;
  }

  /** As `run` calls it: whatever the checker timeout, a tie-break that is let begin is over, post and
      all, by the checker's deadline. */
  method RunTieBreak(start: nat, timeout: nat, clockEnd: nat, m: Meets, begun: nat)
    returns (result: Result, end: nat, held: seq<Copy>)
    requires WithinBudget(m, REQUEST)
    requires start <= begun
    ensures var d := NewDeadlines(start, timeout, POST_RESERVE, clockEnd);
      var kept := Max(510_000_000_000, (d.checker - start) / 10);
      && d.review == (if start + kept <= d.checker then d.checker - kept else start)
      && (begun < d.review ==> end <= d.checker)
      && (result.Decided? ==> end <= d.checker && begun + m.phaseTook <= d.review)
      && (m.phase.Reviewed? && begun + m.phaseTook <= d.review && begun < d.review ==> result != TimedOut)
  {
    var d := NewDeadlines(start, timeout, POST_RESERVE, clockEnd);
    ReviewWindow(start, timeout, POST_RESERVE, clockEnd);
    ghost var wrote, t;
    result, end, held, wrote, t := BreakTie(d, DEFAULT, m, REQUEST, begun);
    assert d.postReserve == DEFAULT.deadline + 7 * REQUEST;
  }
}
