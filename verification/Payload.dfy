/** The bash that a rack job runs, src/rack/job.rs: a list of reviewers compiled into steps that start
    a model server, review, judge and stop, and what running those steps does however they fail. */
module Payload {
  import opened Options

  datatype Reviewer = Reviewer(identity: string, model: string) {
    /** A GGUF on the host rather than a reference to pull. */
    predicate IsLocal() { model != "" && model[0] == '/' }
  }

  datatype Config = Config(bare: bool, judge: bool)

  /** `llama-<identity>.log`, or `llama-judge.log`. */
  datatype Log = ServerLog(identity: string) | JudgeLog

  datatype Step =
    | Prelude | Unpack
    | ClearModel | Pull(model: string) | FindGguf | TestGguf | UseFile(model: string)
    | CheckPort | Launch(log: Log) | AwaitHealth(log: Log)
    | Configure(identity: string) | TouchLog(identity: string) | ReviewOffline(identity: string)
    | ConfigureJudge | JudgeOffline(a: string, b: string) | Excuse
    | Stop

  /** `Steps` run under `set -e`, or exit by themselves. `Judge` is `judge-offline || echo <error>`
      after its configuration. `JudgeAlone` starts the judge's own server in a function called as an
      `if` condition, where `set -e` does not apply, and judges if it comes up. */
  datatype Command =
    | Steps(steps: seq<Step>)
    | Judge(a: string, b: string)
    | JudgeAlone(server: seq<Step>, a: string, b: string)

  // ---- The compiler ----

  function Obtain(r: Reviewer): seq<Step> {
    if r.IsLocal() then [UseFile(r.model)] else [ClearModel, Pull(r.model)] + [FindGguf, TestGguf]
  }

  function Serve(log: Log): seq<Step> {
    [CheckPort] + [Launch(log), AwaitHealth(log)]
  }

  function Start(r: Reviewer, log: Log): seq<Step> {
    Obtain(r) + Serve(log)
  }

  function Review(r: Reviewer): Command {
    Steps([Configure(r.identity), TouchLog(r.identity), ReviewOffline(r.identity)])
  }

  predicate StartsServer(cfg: Config, reviewers: seq<Reviewer>, i: nat)
    requires i < |reviewers|
  {
    cfg.bare || i == 0 || reviewers[i - 1].model != reviewers[i].model
  }

  predicate Judging(cfg: Config, reviewers: seq<Reviewer>) {
    cfg.judge && |reviewers| >= 2
  }

  function Opening(cfg: Config, reviewers: seq<Reviewer>, i: nat): seq<Command>
    requires i < |reviewers|
  {
    if StartsServer(cfg, reviewers, i) then [Steps(Start(reviewers[i], ServerLog(reviewers[i].identity)))] else []
  }

  function Judgment(cfg: Config, reviewers: seq<Reviewer>, i: nat): seq<Command>
    requires i < |reviewers|
  {
    if i + 1 < |reviewers| || !Judging(cfg, reviewers) then []
    else
      var a, b := reviewers[0].identity, reviewers[1].identity;
      if cfg.bare then [Steps([Stop])] + [JudgeAlone(Start(reviewers[i], JudgeLog), a, b)] else [Judge(a, b)]
  }

  function Closing(cfg: Config, reviewers: seq<Reviewer>, i: nat): seq<Command>
    requires i < |reviewers|
  {
    if i + 1 == |reviewers| || StartsServer(cfg, reviewers, i + 1) then [Steps([Stop])] else []
  }

  /** Reviewer `i`'s part of the script. */
  function Section(cfg: Config, reviewers: seq<Reviewer>, i: nat): seq<Command>
    requires i < |reviewers|
  {
    Opening(cfg, reviewers, i) + ([Review(reviewers[i])] + (Judgment(cfg, reviewers, i) + Closing(cfg, reviewers, i)))
  }

  function Sections(cfg: Config, reviewers: seq<Reviewer>): (sections: seq<seq<Command>>)
    ensures |sections| == |reviewers|
  {
    seq(|reviewers|, i requires 0 <= i < |reviewers| => Section(cfg, reviewers, i))
  }

  function Flat(parts: seq<seq<Command>>): seq<Command> {
    if parts == [] then [] else Flat(parts[..|parts| - 1]) + parts[|parts| - 1]
  }

  function Script(cfg: Config, reviewers: seq<Reviewer>): seq<Command> {
    [Steps([Prelude, Unpack])] + Flat(Sections(cfg, reviewers))
  }

  /** The body of the compiler's loop. */
  method AppendSection(cfg: Config, reviewers: seq<Reviewer>, i: nat, before: seq<Command>) returns (s: seq<Command>)
    requires i < |reviewers|
    ensures s == before + Section(cfg, reviewers, i)
  {
    s := before;
    var r := reviewers[i];
    var startServer := cfg.bare || i == 0 || reviewers[i - 1].model != r.model;
    var stopServer := cfg.bare || i + 1 == |reviewers| || reviewers[i + 1].model != r.model;
    if startServer {
      s := s + [Steps(Start(r, ServerLog(r.identity)))];
    }
    s := s + [Review(r)];
    var last := i + 1 == |reviewers|;
    var judging := cfg.judge && last && |reviewers| >= 2;
    if judging && cfg.bare {
      s := s + [Steps([Stop]), JudgeAlone(Start(r, JudgeLog), reviewers[0].identity, reviewers[1].identity)];
    } else if judging {
      s := s + [Judge(reviewers[0].identity, reviewers[1].identity)];
    }
    if stopServer || judging {
      s := s + [Steps([Stop])];
    }
  }

  lemma OneMorePart(first: seq<Command>, parts: seq<seq<Command>>, i: nat)
    requires i < |parts|
    ensures first + Flat(parts[..i + 1]) == first + Flat(parts[..i]) + parts[i]
  {
    assert parts[..i + 1][..i] == parts[..i];
  }

  method Payload(cfg: Config, reviewers: seq<Reviewer>) returns (s: seq<Command>)
    ensures s == Script(cfg, reviewers)
  {
    s := [Steps([Prelude, Unpack])];
    ghost var sections := Sections(cfg, reviewers);
    for i := 0 to |reviewers|
      invariant s == [Steps([Prelude, Unpack])] + Flat(sections[..i])
    {
      s := AppendSection(cfg, reviewers, i, s);
      OneMorePart([Steps([Prelude, Unpack])], sections, i);
    }
    assert sections[..|reviewers|] == sections;
  }

  // ---- The shell ----

  datatype Served = Served(identity: string, model: Option<string>)

  /** A judge's verdict on the reviews of `a` and `b`, by the model that answered, or the error in its place. */
  datatype Verdict = Judgement(model: Option<string>, a: string, b: string) | Apology

  /** The directory `T`, the changes under review, each configuration, and each server's log. */
  datatype File = Directory | Changes | ConfigOf(identity: string) | JudgeConfig | LogOf(identity: string)

  /** `launched` has the model of each server started, `up` those not stopped since, `pid` is `SERVER_PID`,
      and `healthy` says that it is this server which answers on the port. `crowded` says that a server
      was ever started beside another. `failed` counts the steps that failed, and `broken` those of them
      that the reviews need. */
  datatype Shell = Shell(
    ran: nat, files: set<File>, dir: seq<string>, gguf: Option<string>,
    launched: seq<string>, up: set<nat>, pid: Option<nat>, healthy: bool, crowded: bool,
    reviews: seq<Served>, verdict: Option<Verdict>, failed: nat, broken: nat, exit: Option<nat>)
  {
    /** The model of the job's own server, if it is that which answers on the port. */
    function Answering(): Option<string> {
      if healthy && pid.Some? && pid.value in up && pid.value < |launched| then Some(launched[pid.value]) else None
    }
  }

  const FRESH := Shell(0, {}, [], None, [], {}, None, false, false, [], None, 0, 0, None)

  /** Which of the steps run fail, by their number, which file `find` lists first, and whether something
      else answers on the port. */
  datatype Env = Env(fails: nat -> bool, pick: nat -> nat, foreign: bool)

  /** What a step needs, besides luck. */
  predicate Lacks(env: Env, s: Shell, step: Step) {
    match step
    case Unpack => Directory !in s.files
    case TestGguf => s.gguf.None?
    case CheckPort => env.foreign
    case ReviewOffline(identity) => Changes !in s.files || ConfigOf(identity) !in s.files
    case JudgeOffline(_, _) => JudgeConfig !in s.files
    case _ => false
  }

  predicate Fails(env: Env, s: Shell, step: Step) {
    !step.Launch? && !step.Stop? && (Lacks(env, s, step) || (!step.TestGguf? && env.fails(s.ran)))
  }

  /** No step fails for want of luck, and the port is free. */
  ghost predicate Smooth(env: Env) {
    !env.foreign && forall n :: !env.fails(n)
  }

  function Effect(env: Env, s: Shell, step: Step, ok: bool): Shell {
    match step
    case Prelude => if ok then s.(files := s.files + {Directory}) else s
    case Unpack => if ok then s.(files := s.files + {Changes}) else s
    case Configure(identity) => if ok then s.(files := s.files + {ConfigOf(identity)}) else s
    case TouchLog(identity) => if ok then s.(files := s.files + {LogOf(identity)}) else s
    case ConfigureJudge => if ok then s.(files := s.files + {JudgeConfig}) else s
    case AwaitHealth(_) => if ok then s.(healthy := !env.foreign) else s
    case ClearModel => if ok then s.(dir := []) else s
    case Pull(model) => s.(dir := s.dir + [model])
    case FindGguf => s.(gguf := if s.dir == [] then None else Some(s.dir[env.pick(s.ran) % |s.dir|]))
    case UseFile(model) => s.(gguf := Some(model))
    case Launch(_) =>
      s.(launched := s.launched + [if s.gguf.Some? then s.gguf.value else ""], up := s.up + {|s.launched|},
         pid := Some(|s.launched|), healthy := false, crowded := s.crowded || s.up != {})
    case ReviewOffline(identity) => if ok then s.(reviews := s.reviews + [Served(identity, s.Answering())]) else s
    case JudgeOffline(a, b) => if ok then s.(verdict := Some(Judgement(s.Answering(), a, b))) else s
    case Excuse => if ok then s.(verdict := Some(Apology)) else s
    case Stop => s.(up := if s.pid.Some? then s.up - {s.pid.value} else s.up, pid := None)
    case _ => s
  }

  /** Run a step. `forJudge` says that only the verdict depends on it. */
  function Try(env: Env, s: Shell, step: Step, forJudge: bool): Shell {
    var t := Effect(env, s, step, !Fails(env, s, step)).(ran := s.ran + 1);
    if !Fails(env, s, step) then t
    else t.(failed := s.failed + 1, broken := if forJudge then s.broken else s.broken + 1)
  }

  /** Run steps until one fails, and say whether none did. In a function called as a condition `set -e`
      does not apply, so the one step without its own exit, clearing the model directory, may fail. */
  function RunSteps(env: Env, s: Shell, steps: seq<Step>, inFunction: bool): (Shell, bool)
    decreases |steps|
  {
    if steps == [] then (s, true)
    else
      var t := Try(env, s, steps[0], inFunction);
      if Fails(env, s, steps[0]) && !(inFunction && steps[0].ClearModel?) then (t, false)
      else RunSteps(env, t, steps[1..], inFunction)
  }

  /** Run required steps: the script exits where one fails. */
  function Require(env: Env, s: Shell, steps: seq<Step>): Shell {
    var (t, ok) := RunSteps(env, s, steps, false);
    if ok then t else t.(exit := Some(1))
  }

  function RunJudge(env: Env, s: Shell, a: string, b: string): Shell {
    var t := Require(env, s, [ConfigureJudge]);
    if t.exit.Some? then t
    else
      var u := Try(env, t, JudgeOffline(a, b), true);
      if Fails(env, t, JudgeOffline(a, b)) then Require(env, u, [Excuse]) else u
  }

  function RunCommand(env: Env, s: Shell, c: Command): Shell {
    match c
    case Steps(steps) => Require(env, s, steps)
    case Judge(a, b) => RunJudge(env, s, a, b)
    case JudgeAlone(server, a, b) =>
      var (t, ok) := RunSteps(env, s, server, true);
      if ok then RunJudge(env, t, a, b) else Require(env, t, [Excuse])
  }

  function Run(env: Env, s: Shell, script: seq<Command>): Shell
    decreases |script|
  {
    if script == [] || s.exit.Some? then s else Run(env, RunCommand(env, s, script[0]), script[1..])
  }

  /** The whole job: the script, and then the trap on its exit. */
  function Job(env: Env, script: seq<Command>): Shell {
    var s := Run(env, FRESH, script);
    Effect(env, s, Stop, true).(exit := if s.exit.None? then Some(0) else s.exit)
  }

  lemma {:induction false} RunAppend(env: Env, s: Shell, a: seq<Command>, b: seq<Command>)
    ensures Run(env, s, a + b) == Run(env, Run(env, s, a), b)
    decreases |a|
  {
    if a == [] {
      assert a + b == b;
    } else if s.exit.None? {
      assert (a + b)[0] == a[0] && (a + b)[1..] == a[1..] + b;
      RunAppend(env, RunCommand(env, s, a[0]), a[1..], b);
    }
  }

  lemma {:induction false} RunStepsAppend(env: Env, s: Shell, a: seq<Step>, b: seq<Step>, inFunction: bool)
    ensures var (t, ok) := RunSteps(env, s, a, inFunction);
            RunSteps(env, s, a + b, inFunction) == if ok then RunSteps(env, t, b, inFunction) else (t, false)
    decreases |a|
  {
    if a == [] {
      assert a + b == b;
    } else {
      assert (a + b)[0] == a[0] && (a + b)[1..] == a[1..] + b;
      RunStepsAppend(env, Try(env, s, a[0], inFunction), a[1..], b, inFunction);
    }
  }

  // ---- What the script does ----

  /** At most one server, and it is the one that `stop_server` stops. */
  predicate OneServer(s: Shell) {
    !s.crowded && (s.up == {} || (s.pid.Some? && s.up == {s.pid.value}))
  }

  /** One review for each reviewer, in order, each by a server of its own model. */
  function Reviewed(reviewers: seq<Reviewer>): (served: seq<Served>)
    ensures |served| == |reviewers|
  {
    if reviewers == [] then []
    else
      var r := reviewers[|reviewers| - 1];
      Reviewed(reviewers[..|reviewers| - 1]) + [Served(r.identity, Some(r.model))]
  }

  /** How many runs of equal adjacent models there are. */
  function Runs(reviewers: seq<Reviewer>): nat {
    if reviewers == [] then 0
    else
      var last := |reviewers| - 1;
      Runs(reviewers[..last]) + if last > 0 && reviewers[last - 1].model == reviewers[last].model then 0 else 1
  }

  function Starts(cfg: Config, reviewers: seq<Reviewer>, n: nat): nat
    requires n <= |reviewers|
  {
    if cfg.bare then n + (if n == |reviewers| && Judging(cfg, reviewers) then 1 else 0) else Runs(reviewers[..n])
  }

  /** Only files of this model are in the model directory, if the model is pulled at all. */
  predicate Pulled(s: Shell, r: Reviewer) {
    !r.IsLocal() ==> forall model :: model in s.dir ==> model == r.model
  }

  /** Everything but the model files and the failures is as before. */
  predicate SameServers(s: Shell, t: Shell) {
    t == s.(ran := t.ran, dir := t.dir, gguf := t.gguf, failed := t.failed, broken := t.broken)
  }

  /** Steps that end well have not failed, unless the one that may in a function did. */
  predicate Counted(s: Shell, t: Shell, ok: bool, inFunction: bool) {
    if inFunction then t.broken == s.broken && (if ok then s.failed <= t.failed else s.failed < t.failed)
    else if ok then t.failed == s.failed && t.broken == s.broken
    else s.failed < t.failed && s.broken < t.broken
  }

  lemma RunOne(env: Env, s: Shell, a: Step, inFunction: bool)
    ensures RunSteps(env, s, [a], inFunction)
         == (Try(env, s, a, inFunction), !Fails(env, s, a) || (inFunction && a.ClearModel?))
  {
    assert [a][1..] == [];
  }

  lemma RunTwo(env: Env, s: Shell, a: Step, b: Step, inFunction: bool)
    ensures RunSteps(env, s, [a, b], inFunction)
         == var (t, ok) := RunSteps(env, s, [a], inFunction);
            if ok then RunSteps(env, t, [b], inFunction) else (t, false)
  {
    assert [a, b] == [a] + [b];
    RunStepsAppend(env, s, [a], [b], inFunction);
  }

  /** A model is pulled, into an empty directory, unless it is named by a path on the host. */
  lemma PulledUnlessLocal(r: Reviewer)
    ensures if r.model != "" && r.model[0] == '/' then Obtain(r) == [UseFile(r.model)]
            else Obtain(r) == [ClearModel, Pull(r.model), FindGguf, TestGguf]
  {
  }

  lemma PullLeavesOneModel(env: Env, s: Shell, r: Reviewer, inFunction: bool)
    requires inFunction ==> Pulled(s, r)
    requires !r.IsLocal()
    ensures var (t, ok) := RunSteps(env, s, [ClearModel, Pull(r.model)], inFunction);
      && SameServers(s, t) && Counted(s, t, ok, inFunction) && (ok ==> t.dir != [] && Pulled(t, r))
      && (Smooth(env) ==> ok && t.failed == s.failed)
  {
    RunTwo(env, s, ClearModel, Pull(r.model), inFunction);
    RunOne(env, s, ClearModel, inFunction);
    RunOne(env, Try(env, s, ClearModel, inFunction), Pull(r.model), inFunction);
  }

  lemma FindTakesAModel(env: Env, s: Shell, r: Reviewer, inFunction: bool)
    requires s.dir != [] && Pulled(s, r) && !r.IsLocal()
    ensures var (t, ok) := RunSteps(env, s, [FindGguf, TestGguf], inFunction);
      && SameServers(s, t) && Counted(s, t, ok, inFunction) && (ok ==> t.gguf == Some(r.model) && t.dir == s.dir)
      && (Smooth(env) ==> ok && t.failed == s.failed)
  {
    RunTwo(env, s, FindGguf, TestGguf, inFunction);
    RunOne(env, s, FindGguf, inFunction);
    RunOne(env, Try(env, s, FindGguf, inFunction), TestGguf, inFunction);
    assert s.dir[env.pick(s.ran) % |s.dir|] in s.dir;
  }

  lemma ObtainGetsTheModel(env: Env, s: Shell, r: Reviewer, inFunction: bool)
    requires inFunction ==> Pulled(s, r)
    ensures var (t, ok) := RunSteps(env, s, Obtain(r), inFunction);
      && SameServers(s, t) && Counted(s, t, ok, inFunction) && (ok ==> t.gguf == Some(r.model) && Pulled(t, r))
      && (Smooth(env) ==> ok && t.failed == s.failed)
  {
    if r.IsLocal() {
      RunOne(env, s, UseFile(r.model), inFunction);
    } else {
      PullLeavesOneModel(env, s, r, inFunction);
      var (t, ok) := RunSteps(env, s, [ClearModel, Pull(r.model)], inFunction);
      RunStepsAppend(env, s, [ClearModel, Pull(r.model)], [FindGguf, TestGguf], inFunction);
      if ok {
        FindTakesAModel(env, t, r, inFunction);
      }
    }
  }

  /** Starting a server where there is none: `t` has `r`'s server answering, if all went well. */
  predicate StartedFor(s: Shell, t: Shell, ok: bool, r: Reviewer) {
    && s.reviews == t.reviews && s.verdict == t.verdict && s.exit == t.exit && s.files == t.files && OneServer(t)
    && (ok ==> t.Answering() == Some(r.model) && |t.launched| == |s.launched| + 1)
  }

  lemma LaunchServesTheModel(env: Env, s: Shell, r: Reviewer, log: Log, inFunction: bool)
    requires s.gguf == Some(r.model) && OneServer(s) && s.up == {} && !env.foreign
    ensures var (t, ok) := RunSteps(env, s, [Launch(log), AwaitHealth(log)], inFunction);
      && StartedFor(s, t, ok, r) && Counted(s, t, ok, inFunction) && s.dir == t.dir
      && (Smooth(env) ==> ok && t.failed == s.failed)
  {
    RunTwo(env, s, Launch(log), AwaitHealth(log), inFunction);
    RunOne(env, s, Launch(log), inFunction);
    RunOne(env, Try(env, s, Launch(log), inFunction), AwaitHealth(log), inFunction);
  }

  lemma StartServesTheModel(env: Env, s: Shell, r: Reviewer, log: Log, inFunction: bool)
    requires inFunction ==> Pulled(s, r)
    requires OneServer(s) && s.up == {}
    ensures var (t, ok) := RunSteps(env, s, Start(r, log), inFunction);
      && StartedFor(s, t, ok, r) && Counted(s, t, ok, inFunction) && (ok ==> Pulled(t, r))
      && (Smooth(env) ==> ok && t.failed == s.failed)
  {
    ObtainGetsTheModel(env, s, r, inFunction);
    var (t, got) := RunSteps(env, s, Obtain(r), inFunction);
    RunStepsAppend(env, s, Obtain(r), Serve(log), inFunction);
    if got {
      RunStepsAppend(env, t, [CheckPort], [Launch(log), AwaitHealth(log)], inFunction);
      RunOne(env, t, CheckPort, inFunction);
      if !Fails(env, t, CheckPort) {
        LaunchServesTheModel(env, Try(env, t, CheckPort, inFunction), r, log, inFunction);
      }
    }
  }

  lemma RunSingle(env: Env, s: Shell, c: Command)
    requires s.exit.None?
    ensures Run(env, s, [c]) == RunCommand(env, s, c)
  {
    assert [c][1..] == [];
  }

  /** A broken script: it has exited, and what it did is still in order. */
  predicate Broken(reviewers: seq<Reviewer>, s: Shell) {
    && s.exit == Some(1) && s.broken > 0 && s.failed > 0 && OneServer(s)
    && |s.reviews| <= |reviewers| && s.reviews == Reviewed(reviewers[..|s.reviews|])
  }

  ghost predicate KeepsLogs(s: Shell, t: Shell) {
    && (Changes in s.files ==> Changes in t.files)
    && forall identity :: LogOf(identity) in s.files ==> LogOf(identity) in t.files
  }

  predicate Unbroken(s: Shell) {
    s.exit.None? && s.broken == 0 && OneServer(s) && Changes in s.files
  }

  /** Every reviewer whose review is done has a log to upload. */
  predicate Logged(reviewers: seq<Reviewer>, done: nat, s: Shell) {
    forall i :: 0 <= i < done <= |reviewers| ==> LogOf(reviewers[i].identity) in s.files
  }

  /** A judgement is of the first two reviews, by the last reviewer's model. */
  predicate RightVerdict(reviewers: seq<Reviewer>, v: Verdict) {
    v.Judgement? ==>
      && |reviewers| >= 2
      && v == Judgement(Some(reviewers[|reviewers| - 1].model), reviewers[0].identity, reviewers[1].identity)
  }

  /** Between sections: a server is up only if the next reviewer shares it. */
  predicate Ready(cfg: Config, reviewers: seq<Reviewer>, i: nat, s: Shell)
    requires i <= |reviewers|
  {
    && Unbroken(s) && s.reviews == Reviewed(reviewers[..i]) && Logged(reviewers, i, s)
    && (if i == |reviewers| || StartsServer(cfg, reviewers, i) then s.up == {}
        else s.Answering() == Some(reviewers[i].model))
    && (i < |reviewers| ==> s.failed == 0)
    && (if i == |reviewers| && Judging(cfg, reviewers) then s.verdict.Some? else s.verdict.None?)
    && (s.verdict.Some? ==> RightVerdict(reviewers, s.verdict.value))
    && (s.failed == 0 ==> |s.launched| == Starts(cfg, reviewers, i) && s.verdict != Some(Apology))
  }

  /** Within section `i`, while its own server is up, when `done` reviews are. */
  predicate Serving(cfg: Config, reviewers: seq<Reviewer>, i: nat, done: nat, s: Shell)
    requires i < |reviewers| && done <= |reviewers|
  {
    && Unbroken(s) && s.failed == 0 && s.reviews == Reviewed(reviewers[..done]) && s.verdict.None?
    && Logged(reviewers, done, s)
    && s.Answering() == Some(reviewers[i].model)
    && |s.launched| == (if cfg.bare then i + 1 else Runs(reviewers[..i + 1]))
    && (cfg.bare ==> Pulled(s, reviewers[i]))
  }

  lemma OpeningServes(env: Env, cfg: Config, reviewers: seq<Reviewer>, i: nat, s: Shell)
    requires i < |reviewers| && Ready(cfg, reviewers, i, s)
    ensures var t := Run(env, s, Opening(cfg, reviewers, i));
      if Smooth(env) then Serving(cfg, reviewers, i, i, t)
      else Broken(reviewers, t) || Serving(cfg, reviewers, i, i, t)
  {
    var r := reviewers[i];
    assert reviewers[..i + 1][..i] == reviewers[..i];
    if StartsServer(cfg, reviewers, i) {
      var log := ServerLog(r.identity);
      RunSingle(env, s, Steps(Start(r, log)));
      StartServesTheModel(env, s, r, log, false);
    }
  }

  /** Before a review: its configuration and its log are there, or the script breaks. */
  lemma ReviewIsPrepared(env: Env, s: Shell, identity: string)
    ensures var (t, ok) := RunSteps(env, s, [Configure(identity), TouchLog(identity)], false);
      && t == s.(ran := t.ran, files := t.files, failed := t.failed, broken := t.broken)
      && KeepsLogs(s, t) && Counted(s, t, ok, false) && (Smooth(env) ==> ok)
      && (ok ==> ConfigOf(identity) in t.files && LogOf(identity) in t.files)
  {
    RunTwo(env, s, Configure(identity), TouchLog(identity), false);
    RunOne(env, s, Configure(identity), false);
    RunOne(env, Try(env, s, Configure(identity), false), TouchLog(identity), false);
  }

  /** A review in `s` is added by the server's model, with its log, or the script breaks. */
  ghost predicate Reviews(s: Shell, t: Shell, r: Reviewer) {
    && t == s.(ran := t.ran, files := t.files, reviews := t.reviews, failed := t.failed, broken := t.broken,
               exit := t.exit)
    && KeepsLogs(s, t)
    && if t.exit.None?
       then t.reviews == s.reviews + [Served(r.identity, s.Answering())] && LogOf(r.identity) in t.files
         && t.failed == s.failed && t.broken == s.broken
       else t.reviews == s.reviews && t.exit == Some(1) && t.failed > s.failed && t.broken > s.broken
  }

  lemma ReviewTakesPlace(env: Env, s: Shell, r: Reviewer)
    requires s.exit.None? && Changes in s.files
    ensures Reviews(s, RunCommand(env, s, Review(r)), r)
    ensures Smooth(env) ==> RunCommand(env, s, Review(r)).exit.None?
  {
    RunStepsAppend(env, s, [Configure(r.identity), TouchLog(r.identity)], [ReviewOffline(r.identity)], false);
    assert [Configure(r.identity), TouchLog(r.identity)] + [ReviewOffline(r.identity)] == Review(r).steps;
    ReviewIsPrepared(env, s, r.identity);
    var (t, _) := RunSteps(env, s, [Configure(r.identity), TouchLog(r.identity)], false);
    RunOne(env, t, ReviewOffline(r.identity), false);
  }

  lemma ReviewIsServed(env: Env, cfg: Config, reviewers: seq<Reviewer>, i: nat, s: Shell)
    requires i < |reviewers| && Serving(cfg, reviewers, i, i, s)
    ensures var t := Run(env, s, [Review(reviewers[i])]);
      if Smooth(env) then Serving(cfg, reviewers, i, i + 1, t)
      else Broken(reviewers, t) || Serving(cfg, reviewers, i, i + 1, t)
  {
    RunSingle(env, s, Review(reviewers[i]));
    ReviewTakesPlace(env, s, reviewers[i]);
    assert reviewers[..i + 1][..i] == reviewers[..i];
  }

  /** Judging with a server up leaves a verdict or an apology, unless a write fails. */
  ghost predicate JudgedBy(s: Shell, t: Shell, a: string, b: string) {
    && t == s.(ran := t.ran, files := t.files, verdict := t.verdict, failed := t.failed, broken := t.broken,
               exit := t.exit)
    && KeepsLogs(s, t)
    && (t.exit.Some? ==> t.exit == Some(1) && t.broken > s.broken && t.failed > s.failed)
    && (t.exit.None? ==> t.broken == s.broken && s.failed <= t.failed)
    && (t.exit.None? ==>
        t.verdict == Some(Judgement(s.Answering(), a, b)) || (t.verdict == Some(Apology) && s.failed < t.failed))
  }

  /** The judge, once configured: its verdict, or the apology for it, unless that is not written. */
  lemma JudgeOrApology(env: Env, t: Shell, a: string, b: string)
    requires t.exit.None? && JudgeConfig in t.files
    ensures var u := Try(env, t, JudgeOffline(a, b), true);
      var end := if Fails(env, t, JudgeOffline(a, b)) then Require(env, u, [Excuse]) else u;
      JudgedBy(t, end, a, b) && (Smooth(env) ==> end.exit.None? && end.failed == t.failed)
  {
    RunOne(env, Try(env, t, JudgeOffline(a, b), true), Excuse, false);
  }

  lemma JudgeLeavesAVerdict(env: Env, s: Shell, a: string, b: string)
    requires s.exit.None?
    ensures JudgedBy(s, RunJudge(env, s, a, b), a, b)
    ensures Smooth(env) ==> RunJudge(env, s, a, b).exit.None? && RunJudge(env, s, a, b).failed == s.failed
  {
    RunOne(env, s, ConfigureJudge, false);
    var t := Require(env, s, [ConfigureJudge]);
    if t.exit.None? {
      JudgeOrApology(env, t, a, b);
    }
  }

  /** After the review, and the judging if it is the last: what is left is to stop the server. */
  predicate ReadyToStop(cfg: Config, reviewers: seq<Reviewer>, i: nat, s: Shell)
    requires i < |reviewers|
  {
    && Unbroken(s) && s.reviews == Reviewed(reviewers[..i + 1]) && Logged(reviewers, i + 1, s)
    && (i + 1 < |reviewers| ==> s.failed == 0 && s.Answering() == Some(reviewers[i].model))
    && (if i + 1 == |reviewers| && Judging(cfg, reviewers) then s.verdict.Some? else s.verdict.None?)
    && (s.verdict.Some? ==> RightVerdict(reviewers, s.verdict.value))
    && (s.failed == 0 ==> |s.launched| == Starts(cfg, reviewers, i + 1) && s.verdict != Some(Apology))
  }

  /** How judging on a server of its own, begun in `s`, may end. */
  ghost predicate JudgedAfter(s: Shell, t: Shell, model: string, a: string, b: string) {
    && t.reviews == s.reviews && OneServer(t) && KeepsLogs(s, t)
    && (t.exit.Some? ==> t.exit == Some(1) && t.broken > 0 && t.failed > 0)
    && (t.exit.None? ==> t.broken == 0 && t.verdict.Some?)
    && (t.exit.None? && t.verdict == Some(Apology) ==> t.failed > 0)
    && (t.exit.None? && t.verdict != Some(Apology) ==> t.verdict == Some(Judgement(Some(model), a, b)))
    && (t.failed == 0 ==> |t.launched| == |s.launched| + 1)
  }

  /** A server of the judge's own that does not come up costs the verdict only. */
  lemma JudgeAloneLeavesAVerdict(env: Env, s: Shell, r: Reviewer, a: string, b: string)
    requires Unbroken(s) && s.failed == 0 && s.up == {} && Pulled(s, r)
    ensures JudgedAfter(s, RunCommand(env, s, JudgeAlone(Start(r, JudgeLog), a, b)), r.model, a, b)
    ensures Smooth(env) ==> RunCommand(env, s, JudgeAlone(Start(r, JudgeLog), a, b)).failed == 0
  {
    StartServesTheModel(env, s, r, JudgeLog, true);
    var (u, ok) := RunSteps(env, s, Start(r, JudgeLog), true);
    if ok {
      JudgeLeavesAVerdict(env, u, a, b);
    } else {
      RunOne(env, u, Excuse, false);
    }
  }

  /** Stopping the server that answers leaves none, and nothing else changed. */
  lemma StopLeavesNone(env: Env, s: Shell)
    requires Unbroken(s) && s.Answering().Some?
    ensures var t := Run(env, s, [Steps([Stop])]);
      t == s.(ran := t.ran, up := {}, pid := None)
  {
    RunSingle(env, s, Steps([Stop]));
    RunOne(env, s, Stop, false);
  }

  lemma JudgedIsReadyToStop(cfg: Config, reviewers: seq<Reviewer>, i: nat, s: Shell, t: Shell)
    requires i < |reviewers| && Serving(cfg, reviewers, i, i + 1, s)
    requires i + 1 == |reviewers| && Judging(cfg, reviewers) && cfg.bare
    requires JudgedAfter(s, t, reviewers[i].model, reviewers[0].identity, reviewers[1].identity)
    ensures Broken(reviewers, t) || ReadyToStop(cfg, reviewers, i, t)
  {
    assert reviewers[..i + 1] == reviewers;
  }

  /** Bare, the judging is after the reviewer's server is stopped, on one of its own. */
  lemma JudgedAlone(env: Env, cfg: Config, reviewers: seq<Reviewer>, i: nat, s: Shell)
    requires i < |reviewers| && Serving(cfg, reviewers, i, i + 1, s)
    requires i + 1 == |reviewers| && Judging(cfg, reviewers) && cfg.bare
    ensures var t := Run(env, s, Judgment(cfg, reviewers, i));
      && (Broken(reviewers, t) || ReadyToStop(cfg, reviewers, i, t))
      && (Smooth(env) ==> t.failed == 0)
  {
    var r, a, b := reviewers[i], reviewers[0].identity, reviewers[1].identity;
    var stop, judge := Steps([Stop]), JudgeAlone(Start(r, JudgeLog), a, b);
    RunAppend(env, s, [stop], [judge]);
    StopLeavesNone(env, s);
    var t := Run(env, s, [stop]);
    RunSingle(env, t, judge);
    JudgeAloneLeavesAVerdict(env, t, r, a, b);
    JudgedIsReadyToStop(cfg, reviewers, i, s, RunCommand(env, t, judge));
  }

  lemma JudgedByIsReadyToStop(cfg: Config, reviewers: seq<Reviewer>, i: nat, s: Shell, t: Shell)
    requires i < |reviewers| && Serving(cfg, reviewers, i, i + 1, s)
    requires i + 1 == |reviewers| && Judging(cfg, reviewers) && !cfg.bare
    requires JudgedBy(s, t, reviewers[0].identity, reviewers[1].identity)
    ensures Broken(reviewers, t) || ReadyToStop(cfg, reviewers, i, t)
  {
    assert reviewers[..i + 1] == reviewers;
  }

  lemma JudgmentIsMade(env: Env, cfg: Config, reviewers: seq<Reviewer>, i: nat, s: Shell)
    requires i < |reviewers| && Serving(cfg, reviewers, i, i + 1, s)
    ensures var t := Run(env, s, Judgment(cfg, reviewers, i));
      && (Broken(reviewers, t) || ReadyToStop(cfg, reviewers, i, t))
      && (Smooth(env) ==> t.failed == 0)
  {
    if i + 1 == |reviewers| && Judging(cfg, reviewers) {
      var a, b := reviewers[0].identity, reviewers[1].identity;
      if cfg.bare {
        JudgedAlone(env, cfg, reviewers, i, s);
      } else {
        RunSingle(env, s, Judge(a, b));
        JudgeLeavesAVerdict(env, s, a, b);
        JudgedByIsReadyToStop(cfg, reviewers, i, s, RunJudge(env, s, a, b));
      }
    }
  }

  lemma ClosingIsReady(env: Env, cfg: Config, reviewers: seq<Reviewer>, i: nat, s: Shell)
    requires i < |reviewers| && ReadyToStop(cfg, reviewers, i, s)
    ensures Ready(cfg, reviewers, i + 1, Run(env, s, Closing(cfg, reviewers, i)))
    ensures Run(env, s, Closing(cfg, reviewers, i)).failed == s.failed
  {
    if i + 1 == |reviewers| || StartsServer(cfg, reviewers, i + 1) {
      RunSingle(env, s, Steps([Stop]));
      RunOne(env, s, Stop, false);
    }
  }

  lemma SectionIsReady(env: Env, cfg: Config, reviewers: seq<Reviewer>, i: nat, s: Shell)
    requires i < |reviewers| && Ready(cfg, reviewers, i, s)
    ensures var t := Run(env, s, Section(cfg, reviewers, i));
      && (Broken(reviewers, t) || Ready(cfg, reviewers, i + 1, t))
      && (Smooth(env) ==> t.failed == 0)
  {
    var review := [Review(reviewers[i])];
    var judgment, closing := Judgment(cfg, reviewers, i), Closing(cfg, reviewers, i);
    RunAppend(env, s, Opening(cfg, reviewers, i), review + (judgment + closing));
    OpeningServes(env, cfg, reviewers, i, s);
    var s1 := Run(env, s, Opening(cfg, reviewers, i));
    RunAppend(env, s1, review, judgment + closing);
    var s2 := Run(env, s1, review);
    RunAppend(env, s2, judgment, closing);
    if s1.exit.None? {
      ReviewIsServed(env, cfg, reviewers, i, s1);
      if s2.exit.None? {
        JudgmentIsMade(env, cfg, reviewers, i, s2);
        var s3 := Run(env, s2, judgment);
        if s3.exit.None? {
          ClosingIsReady(env, cfg, reviewers, i, s3);
        }
      }
    }
  }

  /** What a script so far has come to. */
  ghost predicate InOrder(env: Env, cfg: Config, reviewers: seq<Reviewer>, i: nat, s: Shell)
    requires i <= |reviewers|
  {
    (Broken(reviewers, s) || Ready(cfg, reviewers, i, s)) && (Smooth(env) ==> s.failed == 0)
  }

  lemma SectionIsInOrder(env: Env, cfg: Config, reviewers: seq<Reviewer>, i: nat, s: Shell)
    requires i < |reviewers|
    requires InOrder(env, cfg, reviewers, i, s)
    ensures InOrder(env, cfg, reviewers, i + 1, Run(env, s, Section(cfg, reviewers, i)))
  {
    if s.exit.None? {
      SectionIsReady(env, cfg, reviewers, i, s);
    }
  }

  /** What every part of a script keeps, the script keeps. */
  lemma {:induction false} RunParts(env: Env, s: Shell, parts: seq<seq<Command>>, kept: (nat, Shell) -> bool)
    requires kept(0, s)
    requires forall i: nat, t: Shell :: i < |parts| && kept(i, t) ==> kept(i + 1, Run(env, t, parts[i]))
    ensures kept(|parts|, Run(env, s, Flat(parts)))
    decreases |parts|
  {
    if parts != [] {
      var last := |parts| - 1;
      RunParts(env, s, parts[..last], kept);
      RunAppend(env, s, Flat(parts[..last]), parts[last]);
    }
  }

  lemma SectionsAreReady(env: Env, cfg: Config, reviewers: seq<Reviewer>, s: Shell)
    requires InOrder(env, cfg, reviewers, 0, s)
    ensures InOrder(env, cfg, reviewers, |reviewers|, Run(env, s, Flat(Sections(cfg, reviewers))))
  {
    ghost var kept := (i: nat, t: Shell) => i <= |reviewers| && InOrder(env, cfg, reviewers, i, t);
    var sections := Sections(cfg, reviewers);
    forall i: nat, t: Shell | i < |sections| && kept(i, t) ensures kept(i + 1, Run(env, t, sections[i])) {
      SectionIsInOrder(env, cfg, reviewers, i, t);
    }
    RunParts(env, s, sections, kept);
  }

  lemma PreludeIsReady(env: Env, cfg: Config, reviewers: seq<Reviewer>)
    ensures InOrder(env, cfg, reviewers, 0, Run(env, FRESH, [Steps([Prelude, Unpack])]))
  {
    RunSingle(env, FRESH, Steps([Prelude, Unpack]));
    RunTwo(env, FRESH, Prelude, Unpack, false);
    RunOne(env, FRESH, Prelude, false);
    RunOne(env, Try(env, FRESH, Prelude, false), Unpack, false);
  }

  lemma ScriptIsReady(env: Env, cfg: Config, reviewers: seq<Reviewer>)
    ensures InOrder(env, cfg, reviewers, |reviewers|, Run(env, FRESH, Script(cfg, reviewers)))
  {
    var first := [Steps([Prelude, Unpack])];
    PreludeIsReady(env, cfg, reviewers);
    RunAppend(env, FRESH, first, Flat(Sections(cfg, reviewers)));
    SectionsAreReady(env, cfg, reviewers, Run(env, FRESH, first));
  }

  /** The trap on the script's exit stops the server, if one is up. */
  lemma ExitStopsTheServer(env: Env, script: seq<Command>)
    requires OneServer(Run(env, FRESH, script))
    ensures var s := Run(env, FRESH, script);
      Job(env, script) == s.(up := {}, pid := None, exit := if s.exit.None? then Some(0) else s.exit)
  {
  }

  /** However the steps of a job fail: never two servers, and none at its end; reviews in order, each
      by a server of its own model; success exactly when no step that the reviews need has failed,
      and then every review and, if one was asked for, a verdict or its apology. */
  lemma JobIsInOrder(env: Env, cfg: Config, reviewers: seq<Reviewer>)
    ensures var job := Job(env, Script(cfg, reviewers));
      && !job.crowded && job.up == {}
      && |job.reviews| <= |reviewers| && job.reviews == Reviewed(reviewers[..|job.reviews|])
      && (job.exit == Some(0) || job.exit == Some(1))
      && (job.exit == Some(0) <==> job.broken == 0)
      && (job.exit == Some(0) ==> job.reviews == Reviewed(reviewers))
      && (job.exit == Some(0) ==> (job.verdict.Some? <==> Judging(cfg, reviewers)))
      && (job.exit == Some(0) && job.verdict.Some? ==> RightVerdict(reviewers, job.verdict.value))
      && (job.exit == Some(0) ==> Logged(reviewers, |reviewers|, job))
      && (Smooth(env) ==> job.exit == Some(0) && job.failed == 0)
      && (job.failed == 0 ==> |job.launched| == Starts(cfg, reviewers, |reviewers|) && job.verdict != Some(Apology))
  {
    ScriptIsReady(env, cfg, reviewers);
    ExitStopsTheServer(env, Script(cfg, reviewers));
    assert reviewers[..|reviewers|] == reviewers;
  }
}
