/** What a checker's result does to a pull request, in src/dispatcher/run.rs: the writes of
    `post_outcome`, with closes, pushes and newer registrations arriving between them. */
module Dispatch {
  import opened Options
  import opened CancelRegistry

  datatype Call = CheckRun | Labels | Review | IssueComment

  datatype Outcome = Outcome(addLabels: bool, inlineComments: bool, issueComment: bool)

  /** The calls that publish `o`, in order. */
  function Plan(o: Outcome): seq<Call> {
    [CheckRun] + (if o.addLabels then [Labels] else []) + (if o.inlineComments then [Review] else [])
    + (if o.issueComment then [IssueComment] else [])
  }

  /** What the pull request's own state is when it is asked for. */
  datatype HeadLookup = LookupFailed | Looked(head: string, open: bool)

  predicate HeadIsCurrent(l: HeadLookup, reviewed: string) {
    l.LookupFailed? || (l.head == reviewed && l.open)
  }

  /** What a posting meets. Its awaits are numbered: 0 is the head lookup, `n` its `n`-th call.
      `during(n)` is what others do to the registry while it waits for await `n`. */
  datatype Env = Env(lookup: HeadLookup, during: nat -> seq<Op>, fails: nat -> bool)

  /** The registry after awaits `0..n`. */
  function After(s: State, env: Env, n: nat): State {
    if n == 0 then s else ApplyAll(After(s, env, n - 1), env.during(n - 1))
  }

  /** Others do what they can, and leave registration `g` to its holder. */
  ghost predicate Fair(s: State, env: Env, g: nat, n: nat) {
    n == 0 || (
      && Fair(s, env, g, n - 1)
      && AllPossible(After(s, env, n - 1), env.during(n - 1)) && Release(g) !in env.during(n - 1))
  }

  lemma {:induction false} HeldThrough(s: State, ops: seq<Op>, g: nat)
    requires Consistent(s) && AllPossible(s, ops) && Release(g) !in ops && g in s.held
    ensures Consistent(ApplyAll(s, ops))
    ensures g in ApplyAll(s, ops).held && ApplyAll(s, ops).held[g] == s.held[g]
    ensures s.fired <= ApplyAll(s, ops).fired
  {
    if ops != [] {
      var before := ops[..|ops| - 1];
      HeldThrough(s, before, g);
      ApplyKeepsConsistent(ApplyAll(s, before), ops[|ops| - 1]);
    }
  }

  /** While `g`'s token is silent it is the pull request's entry, at every await. */
  lemma {:induction false} SilentIsTheEntry(s: State, env: Env, g: nat, n: nat)
    requires Consistent(s) && g in s.held && Fair(s, env, g, n)
    ensures Consistent(After(s, env, n)) && g in After(s, env, n).held && After(s, env, n).held[g] == s.held[g]
    ensures g !in After(s, env, n).fired ==>
      s.held[g].key in After(s, env, n).entries
      && After(s, env, n).entries[s.held[g].key] == InFlight(s.held[g].head, g)
  {
    if n > 0 {
      SilentIsTheEntry(s, env, g, n - 1);
      HeldThrough(After(s, env, n - 1), env.during(n - 1), g);
      assert Live(After(s, env, n), g) || g in After(s, env, n).fired;
    }
  }

  /** A token once fired stays fired, so nothing is begun after it. */
  lemma {:induction false} FiredForGood(s: State, env: Env, g: nat, m: nat, n: nat)
    requires m <= n && g in After(s, env, m).fired
    ensures g in After(s, env, n).fired
    decreases n
  {
    if m < n {
      FiredForGood(s, env, g, m, n - 1);
      FiredThroughOps(After(s, env, n - 1), env.during(n - 1), g);
    }
  }

  lemma {:induction false} FiredThroughOps(s: State, ops: seq<Op>, g: nat)
    requires g in s.fired
    ensures g in ApplyAll(s, ops).fired
  {
    if ops != [] {
      FiredThroughOps(s, ops[..|ops| - 1], g);
    }
  }

  /** The first `n` calls were each begun with `g`'s token silent. */
  predicate BegunSilent(s: State, env: Env, g: nat, n: nat) {
    n == 0 || (BegunSilent(s, env, g, n - 1) && g !in After(s, env, n).fired)
  }

  ghost predicate NoneFailed(env: Env, n: nat) {
    forall k: nat :: 1 <= k <= n ==> !env.fails(k)
  }

  datatype End = NotCurrent | Cancelled | Failed | Complete

  /** One write, if it is wanted, begun with the token silent. `now` is the registry when it is over. */
  method Make(wanted: bool, calls: seq<Call>, call: Call, ghost s: State, now: State, g: nat, env: Env)
    returns (calls': seq<Call>, now': State, stop: Option<End>)
    requires now == After(s, env, |calls| + 1) && g !in now.fired
    requires BegunSilent(s, env, g, |calls|) && NoneFailed(env, |calls|)
    ensures calls' == (if wanted then calls + [call] else calls) && now' == After(s, env, |calls'| + 1)
    ensures BegunSilent(s, env, g, |calls'|) && (stop.Some? ==> wanted)
    ensures match stop
            case None => NoneFailed(env, |calls'|) && g !in now'.fired
            case Some(end) =>
              if env.fails(|calls'|) then end == Failed && NoneFailed(env, |calls'| - 1)
              else end == Cancelled && NoneFailed(env, |calls'|) && g in now'.fired
  {
    calls', now', stop := calls, now, None;
    if wanted {
      calls', now' := calls + [call], ApplyAll(now, env.during(|calls| + 1));
      stop := if env.fails(|calls'|) then Some(Failed) else if g in now'.fired then Some(Cancelled) else None;
    }
  }

  /** Why a posting of `o` begun in `s` ends after `calls`: the pull request is seen to be closed or of
      another head, exactly then; or the token fired, a call failed, or all of them are made. */
  ghost predicate EndsAs(s: State, env: Env, g: nat, head: string, o: Outcome, calls: seq<Call>, end: End) {
    && (end.NotCurrent? <==> env.lookup.Looked? && (env.lookup.head != head || !env.lookup.open))
    && match end
       case NotCurrent => calls == []
       case Cancelled =>
         g in After(s, env, |calls| + 1).fired && forall k: nat :: 1 <= k <= |calls| ==> !env.fails(k)
       case Failed =>
         calls != [] && env.fails(|calls|) && forall k: nat :: 1 <= k < |calls| ==> !env.fails(k)
       case Complete => calls == Plan(o) && forall k: nat :: 1 <= k <= |calls| ==> !env.fails(k)
  }

  /** The plan, call by call. */
  lemma PlanInOrder(o: Outcome) returns (one: seq<Call>, two: seq<Call>, three: seq<Call>)
    ensures one == [CheckRun] && two == (if o.addLabels then one + [Labels] else one)
    ensures three == (if o.inlineComments then two + [Review] else two)
    ensures one <= two <= three <= Plan(o) == (if o.issueComment then three + [IssueComment] else three)
  {
    one := [CheckRun];
    two := if o.addLabels then one + [Labels] else one;
    three := if o.inlineComments then two + [Review] else two;
  }

  /** `post_outcome` for the review of `head` that holds registration `g`. */
  method PostOutcome(s: State, g: nat, head: string, o: Outcome, env: Env) returns (calls: seq<Call>, end: End)
    // The calls made are the first of the plan, each begun with the token silent.
    ensures calls <= Plan(o) && BegunSilent(s, env, g, |calls|)
    // And all of them, unless the head moved, the token fired or a call failed.
    ensures EndsAs(s, env, g, head, o, calls, end)
  {
    calls, end := [], Complete;
    var now := ApplyAll(s, env.during(0));
    assert After(s, env, 0) == s;
    if !HeadIsCurrent(env.lookup, head) {
      return [], NotCurrent;
    }
    if g in now.fired {
      return [], Cancelled;
    }
    ghost var one, two, three := PlanInOrder(o);
    assert calls + [CheckRun] == one;
    var stop;
    calls, now, stop := Make(true, calls, CheckRun, s, now, g, env);
    if stop.Some? {
      return calls, stop.value;
    }
    calls, now, stop := Make(o.addLabels, calls, Labels, s, now, g, env);
    if stop.Some? {
      return calls, stop.value;
    }
    calls, now, stop := Make(o.inlineComments, calls, Review, s, now, g, env);
    if stop.Some? {
      return calls, stop.value;
    }
    calls, now, stop := Make(o.issueComment, calls, IssueComment, s, now, g, env);
    // The last call is followed by no check.
    end := if stop == Some(Failed) then Failed else Complete;
  }

  /** Every call `post_outcome` makes is begun while its review is the one registered for the pull
      request, with the head it reviewed: whatever closes, newer reviews and moved heads come in
      between, the first to come is the end of it. */
  lemma BegunWhileRegistered(s: State, env: Env, g: nat, n: nat, i: nat)
    requires Consistent(s) && g in s.held && Fair(s, env, g, n) && BegunSilent(s, env, g, n)
    requires 1 <= i <= n
    ensures s.held[g].key in After(s, env, i).entries
    ensures After(s, env, i).entries[s.held[g].key] == InFlight(s.held[g].head, g)
  {
    FairTo(s, env, g, n, i);
    SilentIsTheEntry(s, env, g, i);
    SilentTo(s, env, g, n, i);
  }

  lemma {:induction false} FairTo(s: State, env: Env, g: nat, n: nat, i: nat)
    requires i <= n && Fair(s, env, g, n)
    ensures Fair(s, env, g, i)
    decreases n
  {
    if i < n {
      FairTo(s, env, g, n - 1, i);
    }
  }

  lemma {:induction false} SilentTo(s: State, env: Env, g: nat, n: nat, i: nat)
    requires 1 <= i <= n && BegunSilent(s, env, g, n)
    ensures g !in After(s, env, i).fired
    decreases n
  {
    if i < n {
      SilentTo(s, env, g, n - 1, i);
    }
  }

  /** How a checker's own run ends. */
  datatype Ran = Returned(outcome: Outcome) | Errored | TimedOut

  /** What is posted of a run: its outcome, or a neutral check if it failed or timed out. */
  function Published(ran: Ran): Outcome {
    if ran.Returned? then ran.outcome else Outcome(false, false, false)
  }

  /** A checker task: its run, raced against the token, then the posting. A run that fails or times
      out posts a neutral check run; one that ends with the token fired posts nothing. `running` is
      what others do to the registry during the run, `minting` while the posting client is minted. */
  method RunChecker(s: State, g: nat, head: string, ran: Ran, running: seq<Op>, minting: seq<Op>, env: Env)
    returns (calls: seq<Call>, end: End, s': State)
    ensures s' == ApplyAll(ApplyAll(s, running), minting)
    ensures g in ApplyAll(s, running).fired || g in s'.fired ==> calls == []
    ensures calls <= Plan(Published(ran)) && BegunSilent(s', env, g, |calls|)
    ensures !ran.Returned? ==> calls <= [CheckRun]
    // Why it ends, which is for the token if that fired during the run.
    ensures if g in ApplyAll(s, running).fired then end == Cancelled
            else
              var o := if ran.Returned? then ran.outcome else Outcome(false, false, false);
              EndsAs(s', env, g, head, o, calls, end)
  {
    var after := ApplyAll(s, running);
    s' := ApplyAll(after, minting);
    if g in after.fired {
      FiredThroughOps(after, minting, g);
      return [], Cancelled, s';
    }
    calls, end := PostOutcome(s', g, head, Published(ran), env);
    if g in s'.fired && calls != [] {
      FiredForGood(s', env, g, 0, 1);
      SilentTo(s', env, g, |calls|, 1);
    }
  }
}
