/** The one native INSERT the writer may have outstanding: submission to the executor thread, the
    server's process list, the kill-and-prove-absent drain, and the stop that waits for it. */
module InsertGuard {
  import opened Options

  /** The local driver call of one query. A query can reach the server only while its call runs. */
  datatype Call = Queued | Running | Succeeded | Broken

  datatype Drain =
    | NoDrain
    | Killed(query: nat)
    | CallSettled(query: nat)
    | ProvedAbsent(query: nat)

  /** `calls` records every query ever issued, `registered` those the server ever listed, `active`
      those it lists now. */
  datatype State = State(
    accepting: bool,
    closed: bool,
    inflight: Option<nat>,
    calls: map<nat, Call>,
    registered: set<nat>,
    active: set<nat>,
    drain: Drain
  )

  datatype Step =
    | Submit(query: nat)
    | ThreadStarts(query: nat)
    | ServerRegisters(query: nat)
    | ServerEnds(query: nat)
    | CallSucceeds(query: nat)
    | CallBreaks(query: nat)
    | ObserveSuccess
    | KillQuery
    | SeeCallSettled
    | CountZero
    | ClearAbsent
    | RestartDrain
    | Fence
    | Close

  predicate Settled(c: Call) {
    c.Succeeded? || c.Broken?
  }

  predicate CallIs(s: State, query: nat, c: Call) {
    query in s.calls && s.calls[query] == c
  }

  predicate Enabled(s: State, step: Step) {
    match step {
      case Submit(q) => s.inflight.None? && s.accepting && q !in s.calls
      case ThreadStarts(q) => CallIs(s, q, Queued)
      case ServerRegisters(q) => CallIs(s, q, Running) && q !in s.registered
      case ServerEnds(q) => q in s.active
      case CallSucceeds(q) => CallIs(s, q, Running) && q in s.registered && q !in s.active
      case CallBreaks(q) => CallIs(s, q, Running)
      case ObserveSuccess => s.inflight.Some? && CallIs(s, s.inflight.value, Succeeded)
      case KillQuery => s.inflight.Some?
      case SeeCallSettled => s.drain.Killed? && s.drain.query in s.calls && Settled(s.calls[s.drain.query])
      case CountZero => s.drain.CallSettled? && s.drain.query !in s.active
      case ClearAbsent => s.drain.ProvedAbsent? && s.inflight == Some(s.drain.query)
      case RestartDrain => true
      case Fence => true
      case Close => !s.accepting && s.inflight.None?
    }
  }

  function Apply(s: State, step: Step): State
    requires Enabled(s, step)
  {
    match step {
      case Submit(q) => s.(inflight := Some(q), calls := s.calls[q := Queued])
      case ThreadStarts(q) => s.(calls := s.calls[q := if s.accepting then Running else Broken])
      case ServerRegisters(q) => s.(registered := s.registered + {q}, active := s.active + {q})
      case ServerEnds(q) => s.(active := s.active - {q})
      case CallSucceeds(q) => s.(calls := s.calls[q := Succeeded])
      case CallBreaks(q) => s.(calls := s.calls[q := Broken])
      case ObserveSuccess => s.(inflight := None)
      case KillQuery => s.(drain := Killed(s.inflight.value))
      case SeeCallSettled => s.(drain := CallSettled(s.drain.query))
      case CountZero => s.(drain := ProvedAbsent(s.drain.query))
      case ClearAbsent => s.(inflight := None, drain := NoDrain)
      case RestartDrain => s.(drain := NoDrain)
      case Fence => s.(accepting := false)
      case Close => s.(closed := true)
    }
  }

  function Start(): State {
    State(true, false, None, map[], {}, {}, NoDrain)
  }

  /** A query is outstanding while its local call is unsettled or the server lists it. */
  predicate Outstanding(s: State, query: nat) {
    (query in s.calls && !Settled(s.calls[query])) || query in s.active
  }

  ghost predicate Inv(s: State) {
    && (forall q <- s.calls :: Outstanding(s, q) ==> s.inflight == Some(q))
    && s.active <= s.registered <= s.calls.Keys
    && (s.inflight.Some? ==> s.inflight.value in s.calls)
    && (forall q <- s.calls :: s.calls[q].Succeeded? ==> q !in s.active && q in s.registered)
    && (s.drain.CallSettled? || s.drain.ProvedAbsent? ==>
          s.drain.query in s.calls && Settled(s.calls[s.drain.query]))
    && (s.drain.ProvedAbsent? ==> s.drain.query !in s.active)
    && (s.closed ==> !s.accepting && s.inflight.None?)
  }

  lemma StepKeeps(s: State, step: Step)
    requires Inv(s) && Enabled(s, step)
    ensures Inv(Apply(s, step))
  {
  }

  ghost predicate Run(s: State, steps: seq<Step>)
    decreases |steps|
  {
    steps == [] || (Enabled(s, steps[0]) && Run(Apply(s, steps[0]), steps[1..]))
  }

  ghost function After(s: State, steps: seq<Step>): State
    requires Run(s, steps)
    decreases |steps|
  {
    if steps == [] then s else After(Apply(s, steps[0]), steps[1..])
  }

  lemma {:induction false} RunKeeps(s: State, steps: seq<Step>)
    requires Inv(s) && Run(s, steps)
    ensures Inv(After(s, steps))
    ensures s.closed ==> After(s, steps).closed && After(s, steps).calls.Keys == s.calls.Keys
                         && After(s, steps).registered == s.registered
    decreases |steps|
  {
    if steps != [] {
      StepKeeps(s, steps[0]);
      RunKeeps(Apply(s, steps[0]), steps[1..]);
    }
  }

  /** At most one INSERT is ever outstanding, and it is the registered in-flight one. */
  lemma OneInsertAtATime(steps: seq<Step>, a: nat, b: nat)
    requires Run(Start(), steps)
    requires Outstanding(After(Start(), steps), a) && Outstanding(After(Start(), steps), b)
    ensures a == b && After(Start(), steps).inflight == Some(a)
  {
    RunKeeps(Start(), steps);
  }

  /** A new query is issued only after every earlier one has settled and is gone from the server. */
  lemma RetryOnlyAfterProof(steps: seq<Step>, next: nat, earlier: nat)
    requires Run(Start(), steps) && Enabled(After(Start(), steps), Submit(next))
    ensures !Outstanding(After(Start(), steps), earlier)
  {
    RunKeeps(Start(), steps);
  }

  /** Once the writer has closed, nothing is outstanding and nothing ever starts again. */
  lemma ClosedMeansDrained(steps: seq<Step>, later: seq<Step>, query: nat)
    requires Run(Start(), steps) && After(Start(), steps).closed
    requires Run(After(Start(), steps), later)
    ensures var t := After(After(Start(), steps), later);
            && !Outstanding(t, query)
            && t.calls.Keys == After(Start(), steps).calls.Keys
            && t.registered == After(Start(), steps).registered
  {
    RunKeeps(Start(), steps);
    RunKeeps(After(Start(), steps), later);
  }

  // ----- the guard lets work through

  lemma RunStep(s: State, step: Step, rest: seq<Step>)
    requires Enabled(s, step) && Run(Apply(s, step), rest)
    ensures Run(s, [step] + rest) && After(s, [step] + rest) == After(Apply(s, step), rest)
  {
    assert ([step] + rest)[1..] == rest;
  }

  /** From every reachable state in which the writer is open and idle, a new query can be issued and go through,
      and the writer is idle again. */
  lemma InsertCanGoThrough(s: State, q: nat) returns (steps: seq<Step>)
    requires Inv(s) && s.accepting && s.inflight.None? && q !in s.calls
    ensures Run(s, steps)
    ensures After(s, steps) == s.(calls := s.calls[q := Succeeded], registered := s.registered + {q})
  {
    var s1 := Apply(s, Submit(q));
    var s2 := Apply(s1, ThreadStarts(q));
    var s3 := Apply(s2, ServerRegisters(q));
    var s4 := Apply(s3, ServerEnds(q));
    var s5 := Apply(s4, CallSucceeds(q));
    assert q !in s.active && s5.active == s.active && s5.calls == s.calls[q := Succeeded];
    RunStep(s5, ObserveSuccess, []);
    RunStep(s4, CallSucceeds(q), [ObserveSuccess]);
    steps := [CallSucceeds(q)] + [ObserveSuccess];
    RunStep(s3, ServerEnds(q), steps);
    steps := [ServerEnds(q)] + steps;
    RunStep(s2, ServerRegisters(q), steps);
    steps := [ServerRegisters(q)] + steps;
    RunStep(s1, ThreadStarts(q), steps);
    steps := [ThreadStarts(q)] + steps;
    RunStep(s, Submit(q), steps);
    steps := [Submit(q)] + steps;
  }

  /** From every reachable state in which a query is in flight and the server does not list it, its call can break,
      be drained and be proved absent, and the writer is idle again. */
  lemma BrokenInsertCanBeDrained(s: State) returns (steps: seq<Step>)
    requires Inv(s) && s.inflight.Some? && CallIs(s, s.inflight.value, Running) && s.active == {}
    ensures Run(s, steps)
    ensures After(s, steps) == s.(inflight := None, calls := s.calls[s.inflight.value := Broken], drain := NoDrain)
  {
    var q := s.inflight.value;
    var s1 := Apply(s, CallBreaks(q));
    var s2 := Apply(s1, KillQuery);
    var s3 := Apply(s2, SeeCallSettled);
    var s4 := Apply(s3, CountZero);
    RunStep(s4, ClearAbsent, []);
    RunStep(s3, CountZero, [ClearAbsent]);
    steps := [CountZero] + [ClearAbsent];
    RunStep(s2, SeeCallSettled, steps);
    steps := [SeeCallSettled] + steps;
    RunStep(s1, KillQuery, steps);
    steps := [KillQuery] + steps;
    RunStep(s, CallBreaks(q), steps);
    steps := [CallBreaks(q)] + steps;
  }

  /** An idle writer can always be stopped, and only an idle one can close. */
  lemma IdleWriterCanStop(s: State)
    requires Inv(s) && s.inflight.None?
    ensures Enabled(s, Fence) && Enabled(Apply(s, Fence), Close)
    ensures Apply(Apply(s, Fence), Close) == s.(accepting := false, closed := true)
  {
  }

  lemma FencedStep(s: State, step: Step)
    requires Inv(s) && Enabled(s, step) && !s.accepting
    ensures var s' := Apply(s, step);
            && !s'.accepting && s'.calls.Keys == s.calls.Keys
            && (forall q <- s.calls :: s'.calls[q].Running? ==> s.calls[q].Running?)
            && (forall q <- s'.registered :: q in s.registered || CallIs(s, q, Running))
  {
  }

  /** Once the fence is up, no query is issued and no queued one starts; only a call that was running at the fence
      can still reach the server. */
  lemma {:induction false} FencedStartsNothing(s: State, steps: seq<Step>)
    requires Inv(s) && Run(s, steps) && !s.accepting
    ensures var t := After(s, steps);
            && !t.accepting && t.calls.Keys == s.calls.Keys
            && (forall q <- s.calls :: t.calls[q].Running? ==> s.calls[q].Running?)
            && (forall q <- t.registered :: q in s.registered || CallIs(s, q, Running))
    decreases |steps|
  {
    if steps != [] {
      FencedStep(s, steps[0]);
      StepKeeps(s, steps[0]);
      FencedStartsNothing(Apply(s, steps[0]), steps[1..]);
    }
  }
}
