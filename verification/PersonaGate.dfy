/** The persona gate of src/checker/multi_review/orchestrator.rs: how many persona requests fit the
    model's context together, and a run of all of them that lets no more than that in at once. */
module PersonaGate {
  import opened Options

  const U32 := 0x1_0000_0000

  /** The estimate is cast to 32 bits. */
  function EstimateTokens(bytes: nat): nat {
    bytes / 3 % U32
  }

  function Clamp(x: nat, low: nat, high: nat): nat {
    if x < low then low else if x > high then high else x
  }

  /** How many personas may run at once. No context size stands for a hosted API. */
  function PersonaConcurrency(context: Option<nat>, maxTokens: nat, largest: nat, personas: nat): (atOnce: nat)
    ensures 1 <= atOnce && (personas > 0 ==> atOnce <= personas)
  {
    var most := if personas == 0 then 1 else personas;
    if context.None? then most
    else
      var cost := maxTokens + EstimateTokens(largest);
      Clamp(context.value / (if cost == 0 then 1 else cost), 1, most)
  }

  /** It is all of them where no context is shared, and else as many as fit it together by the estimate:
      no fewer, and no more unless it is one. */
  lemma AsManyAsFit(context: Option<nat>, maxTokens: nat, largest: nat, personas: nat)
    ensures var atOnce := PersonaConcurrency(context, maxTokens, largest, personas);
      var cost := maxTokens + largest / 3 % 0x1_0000_0000;
      && (context.None? && personas > 0 ==> atOnce == personas)
      && (context.Some? && atOnce < personas ==> (atOnce + 1) * (if cost == 0 then 1 else cost) > context.value)
      && (context.Some? && atOnce > 1 ==> atOnce * cost <= context.value)
  {
    if context.Some? {
      var atOnce := PersonaConcurrency(context, maxTokens, largest, personas);
      var cost := maxTokens + largest / 3 % 0x1_0000_0000;
      var each := if cost == 0 then 1 else cost;
      var fit := context.value / each;
      FitIsExact(context.value, each, fit);
      if atOnce < personas {
        TimesGrows(fit + 1, atOnce + 1, each);
      }
      if atOnce > 1 {
        TimesGrows(atOnce, fit, each);
      }
    }
  }

  lemma FitIsExact(context: nat, each: nat, fit: nat)
    requires each > 0 && fit == context / each
    ensures fit * each <= context < (fit + 1) * each
  {
  }

  lemma TimesGrows(a: nat, b: nat, each: nat)
    requires a <= b
    ensures a * each <= b * each
  {
  }

  /** A persona's prompt and diff, in bytes. */
  function Largest(sizes: seq<nat>): (largest: nat)
    ensures forall i :: 0 <= i < |sizes| ==> sizes[i] <= largest
    ensures sizes != [] ==> largest in sizes
  {
    if sizes == [] then 0
    else
      var before := Largest(sizes[..|sizes| - 1]);
      if |sizes| == 1 || before < sizes[|sizes| - 1] then sizes[|sizes| - 1] else before
  }

  /** What a request may take of the context: its prompt, and all the output it is allowed. */
  function Cost(maxTokens: nat, bytes: nat): nat {
    maxTokens + bytes / 3
  }

  // ---- The run ----

  datatype Phase<R> = Waiting | Running | Done(result: R)

  /** The personas, and the semaphore's permits. */
  datatype Gate<R> = Gate(phases: seq<Phase<R>>, permits: nat)

  datatype Step<R> = Start(i: nat) | Finish(i: nat, result: R)

  predicate Enabled<R>(g: Gate<R>, step: Step<R>) {
    step.i < |g.phases| &&
    match step
    case Start(i) => g.phases[i].Waiting? && g.permits > 0
    case Finish(i, _) => g.phases[i].Running?
  }

  function After<R>(g: Gate<R>, step: Step<R>): Gate<R>
    requires Enabled(g, step)
  {
    match step
    case Start(i) => Gate(g.phases[i := Running], g.permits - 1)
    case Finish(i, result) => Gate(g.phases[i := Done(result)], g.permits + 1)
  }

  function Opened<R>(personas: nat, permits: nat): Gate<R> {
    Gate(seq(personas, _ => Waiting), permits)
  }

  predicate Runs<R>(g: Gate<R>, steps: seq<Step<R>>)
    decreases |steps|
  {
    steps == [] || (Enabled(g, steps[0]) && Runs(After(g, steps[0]), steps[1..]))
  }

  function End<R>(g: Gate<R>, steps: seq<Step<R>>): Gate<R>
    requires Runs(g, steps)
    decreases |steps|
  {
    if steps == [] then g else End(After(g, steps[0]), steps[1..])
  }

  function CountRunning<R>(phases: seq<Phase<R>>): nat {
    if phases == [] then 0
    else CountRunning(phases[..|phases| - 1]) + if phases[|phases| - 1].Running? then 1 else 0
  }

  /** The tokens that the requests in flight may take together. */
  function InFlight<R>(phases: seq<Phase<R>>, maxTokens: nat, sizes: seq<nat>): (tokens: nat)
    requires |phases| == |sizes|
    ensures forall i :: 0 <= i < |phases| && phases[i].Running? ==> tokens >= maxTokens + sizes[i] / 3
  {
    if phases == [] then 0
    else
      var last := |phases| - 1;
      InFlight(phases[..last], maxTokens, sizes[..last]) +
      if phases[last].Running? then Cost(maxTokens, sizes[last]) else 0
  }

  /** Steps still to come: a start and a finish for each persona. */
  function Left<R>(phases: seq<Phase<R>>): nat {
    if phases == [] then 0
    else
      Left(phases[..|phases| - 1]) +
      match phases[|phases| - 1]
      case Waiting => 2
      case Running => 1
      case Done(_) => 0
  }

  lemma {:induction false} CountsAfter<R>(phases: seq<Phase<R>>, i: nat, p: Phase<R>)
    requires i < |phases|
    ensures CountRunning(phases[i := p]) + (if phases[i].Running? then 1 else 0)
         == CountRunning(phases) + (if p.Running? then 1 else 0)
    ensures Left(phases[i := p]) + (if phases[i].Waiting? then 2 else if phases[i].Running? then 1 else 0)
         == Left(phases) + (if p.Waiting? then 2 else if p.Running? then 1 else 0)
    decreases |phases|
  {
    var last := |phases| - 1;
    if i < last {
      assert phases[i := p][..last] == phases[..last][i := p];
      CountsAfter(phases[..last], i, p);
    } else {
      assert phases[i := p][..last] == phases[..last];
    }
  }

  lemma {:induction false} OpenedCounts<R>(personas: nat)
    ensures CountRunning(seq(personas, _ => Phase<R>.Waiting)) == 0
    ensures Left(seq(personas, _ => Phase<R>.Waiting)) == 2 * personas
  {
    if personas > 0 {
      assert seq(personas, _ => Phase<R>.Waiting)[..personas - 1] == seq(personas - 1, _ => Phase<R>.Waiting);
      OpenedCounts<R>(personas - 1);
    }
  }

  /** Permits out and permits in are as many as the gate began with, and every step is one fewer to
      come, in every run. */
  lemma {:induction false} PermitsAreKept<R>(g: Gate<R>, steps: seq<Step<R>>)
    requires Runs(g, steps)
    ensures var end := End(g, steps);
      && |end.phases| == |g.phases|
      && CountRunning(end.phases) + end.permits == CountRunning(g.phases) + g.permits
      && Left(end.phases) + |steps| == Left(g.phases)
    decreases |steps|
  {
    if steps != [] {
      var step := steps[0];
      CountsAfter(g.phases, step.i, if step.Start? then Running else Done(step.result));
      PermitsAreKept(After(g, step), steps[1..]);
    }
  }

  predicate Ready<R>(g: Gate<R>, i: nat) {
    i < |g.phases| && (g.phases[i].Running? || (g.phases[i].Waiting? && g.permits > 0))
  }

  /** While a persona is not done, some step can be taken: the gate never gets stuck. */
  lemma NeverStuck<R>(g: Gate<R>, atOnce: nat, notDone: nat)
    requires atOnce >= 1 && CountRunning(g.phases) + g.permits == atOnce
    requires notDone < |g.phases| && !g.phases[notDone].Done?
    ensures exists i: nat :: i < |g.phases| && Ready(g, i)
  {
    if CountRunning(g.phases) > 0 {
      var i := SomeRunning(g.phases);
      assert Ready(g, i);
    } else {
      NoneRunning(g.phases, notDone);
      assert Ready(g, notDone);
    }
  }

  lemma {:induction false} SomeRunning<R>(phases: seq<Phase<R>>) returns (i: nat)
    requires CountRunning(phases) > 0
    ensures i < |phases| && phases[i].Running?
    decreases |phases|
  {
    i := |phases| - 1;
    if !phases[i].Running? {
      i := SomeRunning(phases[..i]);
    }
  }

  lemma {:induction false} NoneRunning<R>(phases: seq<Phase<R>>, i: nat)
    requires CountRunning(phases) == 0 && i < |phases|
    ensures !phases[i].Running?
    decreases |phases|
  {
    if i < |phases| - 1 {
      NoneRunning(phases[..|phases| - 1], i);
    }
  }

  // ---- What is in flight ----

  lemma TimesNext(n: nat, cost: nat)
    ensures (n + 1) * cost == n * cost + cost
  {
  }

  lemma {:induction false} TimesMore(n: nat, m: nat, cost: nat)
    requires n <= m
    ensures n * cost <= m * cost
    decreases m
  {
    if n < m {
      TimesMore(n, m - 1, cost);
      TimesNext(m - 1, cost);
    }
  }

  /** `n` requests of this cost fit the context if and only if division says so. */
  lemma DivisionFits(context: nat, cost: nat, n: nat)
    requires cost > 0
    ensures n <= context / cost <==> n * cost <= context
  {
    var q := context / cost;
    assert q * cost <= context < q * cost + cost;
    TimesNext(q, cost);
    if n <= q {
      TimesMore(n, q, cost);
    } else {
      TimesMore(q + 1, n, cost);
    }
  }

  lemma {:induction false} InFlightIsBounded<R>(phases: seq<Phase<R>>, maxTokens: nat, sizes: seq<nat>,
                                                largest: nat, cost: nat)
    requires |phases| == |sizes| && cost == Cost(maxTokens, largest)
    requires forall i :: 0 <= i < |sizes| ==> sizes[i] <= largest
    ensures InFlight(phases, maxTokens, sizes) <= CountRunning(phases) * cost
    decreases |phases|
  {
    if phases != [] {
      var last := |phases| - 1;
      InFlightIsBounded(phases[..last], maxTokens, sizes[..last], largest, cost);
      CostsLess(maxTokens, sizes[last], largest);
      TimesNext(CountRunning(phases[..last]), cost);
    }
  }

  lemma CostsLess(maxTokens: nat, bytes: nat, largest: nat)
    requires bytes <= largest
    ensures Cost(maxTokens, bytes) <= Cost(maxTokens, largest)
  {
  }

  lemma AtOnceFit(context: nat, maxTokens: nat, largest: nat, personas: nat, n: nat)
    requires context < U32 && Cost(maxTokens, largest) <= context
    requires n <= PersonaConcurrency(Some(context), maxTokens, largest, personas)
    ensures n * Cost(maxTokens, largest) <= context
  {
    var cost := Cost(maxTokens, largest);
    assert largest / 3 < U32 && EstimateTokens(largest) == largest / 3;
    if cost > 0 {
      DivisionFits(context, cost, 1);
      DivisionFits(context, cost, n);
    }
  }

  /** In every state of every run, the requests in flight fit the context together if the largest
      fits it alone. */
  lemma InFlightFits<R>(context: nat, maxTokens: nat, sizes: seq<nat>, steps: seq<Step<R>>)
    requires context < U32 && sizes != [] && Cost(maxTokens, Largest(sizes)) <= context
    requires Runs(Opened<R>(|sizes|, PersonaConcurrency(Some(context), maxTokens, Largest(sizes), |sizes|)), steps)
    ensures var g := Opened<R>(|sizes|, PersonaConcurrency(Some(context), maxTokens, Largest(sizes), |sizes|));
      |End(g, steps).phases| == |sizes| && InFlight(End(g, steps).phases, maxTokens, sizes) <= context
  {
    var largest := Largest(sizes);
    var atOnce := PersonaConcurrency(Some(context), maxTokens, largest, |sizes|);
    var g := Opened<R>(|sizes|, atOnce);
    OpenedCounts<R>(|sizes|);
    PermitsAreKept(g, steps);
    var end := End(g, steps);
    InFlightIsBounded(end.phases, maxTokens, sizes, largest, Cost(maxTokens, largest));
    AtOnceFit(context, maxTokens, largest, |sizes|, CountRunning(end.phases));
  }

  /** In every state of every run at most one request is in flight if the largest does not fit the
      context, and its estimate does not wrap around. */
  lemma OneInFlight<R>(context: nat, maxTokens: nat, sizes: seq<nat>, steps: seq<Step<R>>)
    requires |sizes| > 1 && Cost(maxTokens, Largest(sizes)) > context && Largest(sizes) / 3 < U32
    requires Runs(Opened<R>(|sizes|, PersonaConcurrency(Some(context), maxTokens, Largest(sizes), |sizes|)), steps)
    ensures var g := Opened<R>(|sizes|, PersonaConcurrency(Some(context), maxTokens, Largest(sizes), |sizes|));
            CountRunning(End(g, steps).phases) <= 1
  {
    OneAtATime(context, maxTokens, Largest(sizes), |sizes|);
    OpenedCounts<R>(|sizes|);
    PermitsAreKept(Opened<R>(|sizes|, 1), steps);
  }

  /** With a largest request that does not fit the context, and more than one, they run one at a time
      if and only if its estimate does not wrap around to one that fits twice. */
  lemma OneAtATime(context: nat, maxTokens: nat, largest: nat, personas: nat)
    requires personas > 1 && Cost(maxTokens, largest) > context
    ensures PersonaConcurrency(Some(context), maxTokens, largest, personas) == 1
      <==> context < 2 * (maxTokens + EstimateTokens(largest)) || context < 2
    ensures largest / 3 < U32 ==> PersonaConcurrency(Some(context), maxTokens, largest, personas) == 1
  {
    var cost := maxTokens + EstimateTokens(largest);
    if cost > 0 {
      DivisionFits(context, cost, 2);
    }
    if largest / 3 < U32 {
      assert cost == Cost(maxTokens, largest);
    }
  }

  /** A prompt of 12 GiB wraps around to nothing: two run together where not one fits. */
  lemma WrappedEstimateLetsTwoIn()
    ensures Cost(1, 3 * U32) > 65536 && PersonaConcurrency(Some(65536), 1, 3 * U32, 2) == 2
  {
    assert 3 * U32 / 3 == U32 && U32 % U32 == 0;
  }

  // ---- Running them all ----

  predicate AllDone<R>(phases: seq<Phase<R>>) {
    forall i :: 0 <= i < |phases| ==> phases[i].Done?
  }

  lemma {:induction false} NothingLeft<R>(phases: seq<Phase<R>>)
    requires AllDone(phases)
    ensures Left(phases) == 0
    decreases |phases|
  {
    if phases != [] {
      NothingLeft(phases[..|phases| - 1]);
    }
  }

  lemma {:induction false} RunsOn<R>(g: Gate<R>, steps: seq<Step<R>>, step: Step<R>)
    requires Runs(g, steps) && Enabled(End(g, steps), step)
    ensures Runs(g, steps + [step]) && End(g, steps + [step]) == After(End(g, steps), step)
    decreases |steps|
  {
    if steps == [] {
      assert steps + [step] == [step] && [step][1..] == [];
    } else {
      assert (steps + [step])[0] == steps[0] && (steps + [step])[1..] == steps[1..] + [step];
      RunsOn(After(g, steps[0]), steps[1..], step);
    }
  }

  /** Run every persona, in whatever order the requests start and end: each runs once, and the results
      come in the order of the personas. */
  method RunPersonasGated<R(0)>(context: Option<nat>, maxTokens: nat, sizes: seq<nat>, outcome: nat -> R)
    returns (results: seq<R>, ghost steps: seq<Step<R>>)
    ensures |results| == |sizes| && forall i :: 0 <= i < |sizes| ==> results[i] == outcome(i)
    ensures Runs(Opened<R>(|sizes|, PersonaConcurrency(context, maxTokens, Largest(sizes), |sizes|)), steps)
    ensures |steps| == 2 * |sizes|
  {
    var atOnce := PersonaConcurrency(context, maxTokens, Largest(sizes), |sizes|);
    var gate := Opened<R>(|sizes|, atOnce);
    ghost var first := gate;
    steps := [];
    OpenedCounts<R>(|sizes|);
    while !AllDone(gate.phases)
      invariant |gate.phases| == |sizes| && Runs(first, steps) && gate == End(first, steps)
      invariant forall i :: 0 <= i < |sizes| && gate.phases[i].Done? ==> gate.phases[i].result == outcome(i)
      decreases Left(gate.phases)
    {
      PermitsAreKept(first, steps);
      ghost var notDone :| 0 <= notDone < |gate.phases| && !gate.phases[notDone].Done?;
      NeverStuck(gate, atOnce, notDone);
      var i: nat :| i < |gate.phases| && Ready(gate, i);
      var step := if gate.phases[i].Running? then Finish(i, outcome(i)) else Start(i);
      RunsOn(first, steps, step);
      CountsAfter(gate.phases, i, if step.Start? then Running else Done(outcome(i)));
      gate, steps := After(gate, step), steps + [step];
    }
    PermitsAreKept(first, steps);
    NothingLeft(gate.phases);
    results := seq(|sizes|, i requires 0 <= i < |gate.phases| && gate.phases[i].Done? => gate.phases[i].result);
  }
}
