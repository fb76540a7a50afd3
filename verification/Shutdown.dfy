/** Enqueue, flush and stop as threads over one queue and one HTTP client, interleaved between any two of
    their locked sections: who may drain, what shutdown reports, what happens to every admitted event, and
    how many HTTP requests a batch costs. */
module Shutdown {
  import opened Options
  import opened Batches
  import opened EventQueue
  import opened Transport

  // ----- the HTTP client under the queue

  /** The client: its schedule, the network each send meets, and the shutdown flag as the bisection
      observes it before each further send. */
  datatype Line = Line(
    backoff: seq<real>,
    interruptible: bool,
    networks: (nat, seq<Event>) -> Network,
    stopping: nat -> bool
  )

  function Wire(line: Line, n: nat, batch: seq<Event>): Network {
    line.networks(n, batch)
  }

  predicate StopSeen(line: Line, n: nat) {
    line.stopping(n)
  }

  /** The POST of one send, with its retries. */
  function Send(line: Line, n: nat, batch: seq<Event>): Posted {
    Post(Wire(line, n, batch), line.interruptible, line.backoff, 0, Link(0, []))
  }

  function AsService(line: Line): Service {
    Service((n: nat, batch: seq<Event>) => Send(line, n, batch).outcome, (n: nat) => StopSeen(line, n))
  }

  /** HTTP requests of consecutive sends, the first of them the n-th. */
  function HttpRequests(line: Line, n: nat, sends: seq<seq<Event>>): nat
    decreases |sends|
  {
    if sends == [] then 0 else Send(line, n, sends[0]).requests + HttpRequests(line, n + 1, sends[1..])
  }

  /** Both flags, once seen set, stay set. */
  ghost predicate FlagsAreFinal(line: Line) {
    && (forall n: nat, b: seq<Event> :: CancellationIsFinal(Wire(line, n, b)))
    && (forall n: nat, m: nat :: n <= m && StopSeen(line, n) ==> StopSeen(line, m))
  }

  ghost predicate StopAlways(line: Line, seen: bool) {
    forall n: nat :: StopSeen(line, n) == seen
  }

  ghost predicate CancelAlways(line: Line, seen: bool) {
    forall n: nat, b: seq<Event>, check: nat :: CancelledAt(Wire(line, n, b), check) == seen
  }

  // ----- the threads

  /** A thread's drain. `since` is the number of events settled before it began; a batch remembers which
      of the two shutdown flags were set when it was taken. */
  datatype Drain =
    | Holding
    | Ready(since: nat, accepted: nat, rejected: nat)
    | Sending(since: nat, accepted: nat, rejected: nat, batch: seq<Event>, afterStop: bool, afterCancel: bool)
    | Reporting(since: nat, accepted: nat, rejected: nat)
    | Reported(since: nat, report: Report)
    | Releasing

  datatype Stop =
    | NotStopping
    | Fenced
    | Signalled
    | Cancelled
    | Looked(hadActive: bool)
    | Closed(report: Report)

  /** The stopping thread is the one that reached `Looked`; it drains like any other. `admitted` and
      `fates` are histories: every event taken in, and the fate of each settled one, in order. `began`
      is the number of events settled before the drain that shutdown reports: the one active when stop
      looked, or else stop's own. `sends` and `http` count the sends and the HTTP requests so far. */
  datatype State = State(
    batchSize: nat,
    maxQueueSize: nat,
    queue: seq<Event>,
    accepting: bool,
    stopping: bool,
    cancelled: bool,
    drainActive: bool,
    lock: Option<nat>,
    drains: map<nat, Drain>,
    last: Option<(nat, Report)>,
    stop: Stop,
    stopper: nat,
    began: nat,
    admitted: seq<Event>,
    fates: seq<Fate>,
    sends: nat,
    http: nat
  )

  datatype Step =
    | Admit(e: Event)
    | Acquire(t: nat)
    | Decide(t: nat)
    | Take(t: nat)
    | Exhaust(t: nat)
    | Settle(t: nat, line: Line)
    | Snapshot(t: nat)
    | Publish(t: nat)
    | Release(t: nat)
    | Fence
    | Signal
    | Cancel
    | Look
    | StopAcquire
    | StopClose

  /** The flags as the sends of a batch in flight can observe them: what was set when it was taken is seen
      from the first check on, and what is not set yet is never seen. */
  ghost predicate Observes(s: State, d: Drain, line: Line)
    requires d.Sending?
  {
    && FlagsAreFinal(line)
    && (d.afterStop ==> StopAlways(line, true)) && (!s.stopping ==> StopAlways(line, false))
    && (d.afterCancel ==> CancelAlways(line, true)) && (!s.cancelled ==> CancelAlways(line, false))
  }

  ghost predicate Enabled(s: State, step: Step) {
    match step {
      case Admit(e) => s.accepting && |s.queue| < s.maxQueueSize && Admissible(e)
      case Acquire(t) => s.lock.None? && t != s.stopper && t !in s.drains
      case Decide(t) => t in s.drains && s.drains[t].Holding?
      case Take(t) => t in s.drains && s.drains[t].Ready? && s.queue != []
      case Exhaust(t) => t in s.drains && s.drains[t].Ready? && s.queue == []
      case Settle(t, line) => t in s.drains && s.drains[t].Sending? && Observes(s, s.drains[t], line)
      case Snapshot(t) => t in s.drains && s.drains[t].Reporting?
      case Publish(t) => t in s.drains && s.drains[t].Reported? && t != s.stopper
      case Release(t) => t in s.drains && s.drains[t].Releasing?
      case Fence => s.stop.NotStopping?
      case Signal => s.stop.Fenced?
      case Cancel => s.stop.Signalled?
      case Look => s.stop.Cancelled?
      case StopAcquire => s.stop.Looked? && s.lock.None? && s.stopper !in s.drains
      case StopClose =>
        s.stop.Looked? && s.stopper in s.drains && s.drains[s.stopper].Reported?
    }
  }

  /** Where the active drain began; with none active, the next one begins here. */
  function ActiveSince(s: State): nat {
    if s.drainActive && s.lock.Some? && s.lock.value in s.drains
       && (Draining(s.drains[s.lock.value]) || s.drains[s.lock.value].Reported?)
    then s.drains[s.lock.value].since else |s.fates|
  }

  predicate Draining(d: Drain) {
    d.Ready? || d.Sending? || d.Reporting?
  }

  /** One answered batch: settled events get their fates, the rest returns to the front. */
  function AfterSettle(s: State, t: nat, d: Delivery, requests: nat): State
    requires t in s.drains && s.drains[t].Sending?
  {
    var dr := s.drains[t];
    var accepted, rejected := dr.accepted + Count(d.fates, Taken), dr.rejected + Count(d.fates, Dropped);
    s.(queue := d.retryable + s.queue,
    fates := s.fates + d.fates,
    sends := s.sends + |d.sends|,
    http := s.http + requests,
    drains := s.drains[t := if d.retryable != [] then Reporting(dr.since, accepted, rejected)
    else Ready(dr.since, accepted, rejected)])
  }

  function Apply(s: State, step: Step): State
    requires Enabled(s, step)
  {
    match step {
      case Admit(e) => s.(queue := s.queue + [e], admitted := s.admitted + [e])
      case Acquire(t) => s.(lock := Some(t), drains := s.drains[t := Holding])
      case Decide(t) =>
        if s.stopping then s.(drains := s.drains[t := Releasing])
        else s.(drainActive := true, drains := s.drains[t := Ready(|s.fates|, 0, 0)])
      case Take(t) =>
        var dr, k := s.drains[t], FrontSize(s.queue, s.batchSize, 1);
        s.(queue := s.queue[k..],
        drains := s.drains[t := Sending(dr.since, dr.accepted, dr.rejected, s.queue[..k], s.stopping, s.cancelled)])
      case Exhaust(t) =>
        var dr := s.drains[t];
        s.(drains := s.drains[t := Reporting(dr.since, dr.accepted, dr.rejected)])
      case Settle(t, line) =>
        var d := Deliver(s.drains[t].batch, AsService(line), s.sends);
        AfterSettle(s, t, d, HttpRequests(line, s.sends, d.sends))
      case Snapshot(t) =>
        var dr := s.drains[t];
        s.(drains := s.drains[t := Reported(dr.since, Report(dr.accepted, dr.rejected, s.queue))])
      case Publish(t) =>
        s.(last := Some((s.drains[t].since, s.drains[t].report)), drainActive := false,
        drains := s.drains[t := Releasing])
      case Release(t) => s.(lock := None, drains := s.drains - {t})
      case Fence => s.(accepting := false, stop := Fenced)
      case Signal => s.(stopping := true, stop := Signalled)
      case Cancel => s.(cancelled := true, stop := Cancelled)
      case Look => s.(stop := Looked(s.drainActive), began := ActiveSince(s))
      case StopAcquire =>
        var begin := if s.stop.hadActive && s.last.Some?
                     then Reporting(s.last.value.0, s.last.value.1.accepted, s.last.value.1.rejected)
                     else Ready(|s.fates|, 0, 0);
        s.(lock := Some(s.stopper), drains := s.drains[s.stopper := begin])
      case StopClose =>
        s.(stop := Closed(s.drains[s.stopper].report), drains := s.drains[s.stopper := Releasing])
    }
  }

  // ----- invariants

  function InFlight(d: Drain): seq<Event> {
    if d.Sending? then d.batch else []
  }

  /** The batch held by whoever holds the lock. */
  function AllInFlight(s: State): seq<Event> {
    if s.lock.Some? && s.lock.value in s.drains then InFlight(s.drains[s.lock.value]) else []
  }

  /** A drain's counts are those of the events settled since it began. */
  ghost predicate CountsOk(fates: seq<Fate>, since: nat, accepted: nat, rejected: nat) {
    since <= |fates| && accepted == Count(fates[since..], Taken) && rejected == Count(fates[since..], Dropped)
  }

  ghost predicate DrainOk(s: State, t: nat, d: Drain) {
    && (Draining(d) ==> CountsOk(s.fates, d.since, d.accepted, d.rejected))
    && (d.Reported? ==> CountsOk(s.fates, d.since, d.report.accepted, d.report.rejected))
    && (d.Sending? ==>
          && 0 < |d.batch| <= s.batchSize && RequestBytes(d.batch) <= MAX_REQUEST_BYTES
          && (d.afterStop ==> s.stopping) && (d.afterCancel ==> s.cancelled && d.afterStop))
    && (t != s.stopper ==> (s.drainActive <==> Draining(d) || d.Reported?))
    && (t == s.stopper ==> !d.Holding? && (s.stop.Looked? || s.stop.Closed?) && (s.stop.Closed? <==> d.Releasing?))
    && (t == s.stopper && d.Reported? ==> d.report.undelivered == s.queue)
    && (t == s.stopper && s.stop.Looked? && s.stop.hadActive ==> !d.Ready? && !d.Sending?)
    && (s.stop.Looked? && (Draining(d) || d.Reported?) ==> d.since == s.began)
  }

  ghost predicate Inv(s: State) {
    && s.batchSize > 0
    // mutual exclusion: only the holder of the lock has a drain
    && (forall t <- s.drains :: s.lock == Some(t))
    && (s.lock.Some? ==> s.lock.value in s.drains && DrainOk(s, s.lock.value, s.drains[s.lock.value]))
    && (s.lock.None? || s.lock == Some(s.stopper) ==> !s.drainActive)
    // conservation and order
    && |s.fates| <= |s.admitted|
    && AllInFlight(s) + s.queue == s.admitted[|s.fates|..]
    && (forall e <- s.admitted :: Admissible(e))
    // bounds
    && |s.queue| + |AllInFlight(s)| <= s.maxQueueSize + s.batchSize
    // shutdown
    && (s.accepting <==> s.stop.NotStopping?)
    && (s.stopping <==> s.stop.Signalled? || s.cancelled)
    && (s.cancelled <==> s.stop.Cancelled? || s.stop.Looked? || s.stop.Closed?)
    && (s.stop.Looked? && s.stop.hadActive && !s.drainActive ==>
          s.last.Some? && s.last.value.0 == s.began
          && CountsOk(s.fates, s.began, s.last.value.1.accepted, s.last.value.1.rejected))
    && (s.stop.Looked? && s.drainActive ==> s.stop.hadActive)
    && (s.stop.Looked? && !s.stop.hadActive && s.lock != Some(s.stopper) ==> s.began == |s.fates|)
    && (s.stop.Closed? ==>
          && !s.drainActive
          && s.stop.report.undelivered == s.queue
          && AllInFlight(s) == []
          && CountsOk(s.fates, s.began, s.stop.report.accepted, s.stop.report.rejected))
  }

  lemma CountsExtend(fates: seq<Fate>, since: nat, accepted: nat, rejected: nat, more: seq<Fate>)
    requires CountsOk(fates, since, accepted, rejected)
    ensures CountsOk(fates + more, since, accepted + Count(more, Taken), rejected + Count(more, Dropped))
  {
    assert (fates + more)[since..] == fates[since..] + more;
    CountSplits(fates[since..], more, Taken);
    CountSplits(fates[since..], more, Dropped);
  }

  /** Settling `k` events of the batch in flight moves the settled prefix on by `k`. */
  lemma SettledPrefixAdvances(admitted: seq<Event>, done: nat, batch: seq<Event>, queue: seq<Event>, k: nat)
    requires done <= |admitted| && batch + queue == admitted[done..] && k <= |batch|
    ensures done + k <= |admitted| && batch[k..] + queue == admitted[done + k..]
  {
    assert admitted[done + k..] == admitted[done..][k..];
    assert (batch + queue)[k..] == batch[k..] + queue;
  }

  lemma AfterSettleKeeps(s: State, t: nat, d: Delivery, requests: nat)
    requires Inv(s) && t in s.drains && s.drains[t].Sending?
    requires |d.fates| <= |s.drains[t].batch| && d.retryable == s.drains[t].batch[|d.fates|..]
    ensures Inv(AfterSettle(s, t, d, requests))
  {
    var dr := s.drains[t];
    assert s.lock == Some(t) && AllInFlight(s) == dr.batch;
    CountsExtend(s.fates, dr.since, dr.accepted, dr.rejected, d.fates);
    SettledPrefixAdvances(s.admitted, |s.fates|, dr.batch, s.queue, |d.fates|);
    var s' := AfterSettle(s, t, d, requests);
    assert AllInFlight(s') == [] && AllInFlight(s') + s'.queue == s'.queue;
  }

  lemma SettleKeeps(s: State, t: nat, line: Line)
    requires Inv(s) && Enabled(s, Settle(t, line))
    ensures Inv(Apply(s, Settle(t, line)))
  {
    var d := Deliver(s.drains[t].batch, AsService(line), s.sends);
    RetryableIsSuffix(s.drains[t].batch, AsService(line), s.sends);
    AfterSettleKeeps(s, t, d, HttpRequests(line, s.sends, d.sends));
  }

  lemma AdmitKeeps(s: State, e: Event)
    requires Inv(s) && Enabled(s, Admit(e))
    ensures Inv(Apply(s, Admit(e)))
  {
    assert (s.admitted + [e])[|s.fates|..] == s.admitted[|s.fates|..] + [e];
    assert AllInFlight(s) + (s.queue + [e]) == AllInFlight(s) + s.queue + [e];
  }

  lemma FrontOfAdmitted(queue: seq<Event>, admitted: seq<Event>, done: nat, batchSize: nat)
    requires batchSize > 0 && queue != [] && done <= |admitted| && queue == admitted[done..]
    requires forall e <- admitted :: Admissible(e)
    ensures var k := FrontSize(queue, batchSize, 1);
            && 0 < k <= batchSize && k <= |queue| && RequestBytes(queue[..k]) <= MAX_REQUEST_BYTES
            && queue[..k] + queue[k..] == queue && |queue[..k]| == k
  {
    FrontFits(queue, batchSize, 0);
  }

  lemma TakeKeeps(s: State, t: nat)
    requires Inv(s) && Enabled(s, Take(t))
    ensures Inv(Apply(s, Take(t)))
  {
    assert s.lock == Some(t) && AllInFlight(s) == [];
    assert [] + s.queue == s.queue;
    FrontOfAdmitted(s.queue, s.admitted, |s.fates|, s.batchSize);
  }

  lemma StopKeeps(s: State, step: Step)
    requires Inv(s) && Enabled(s, step)
    requires step.Fence? || step.Signal? || step.Cancel? || step.Look? || step.StopAcquire? || step.StopClose?
    ensures Inv(Apply(s, step))
  {
    assert s.fates[|s.fates|..] == [];
  }

  lemma FlushKeeps(s: State, step: Step)
    requires Inv(s) && Enabled(s, step)
    requires step.Acquire? || step.Decide? || step.Exhaust? || step.Snapshot? || step.Publish? || step.Release?
    ensures Inv(Apply(s, step))
  {
    assert s.fates[|s.fates|..] == [];
  }

  lemma StepKeeps(s: State, step: Step)
    requires Inv(s) && Enabled(s, step)
    ensures Inv(Apply(s, step))
  {
    match step {
      case Admit(e) => AdmitKeeps(s, e);
      case Take(t) => TakeKeeps(s, t);
      case Settle(t, line) => SettleKeeps(s, t, line);
      case Acquire(_) => FlushKeeps(s, step);
      case Decide(_) => FlushKeeps(s, step);
      case Exhaust(_) => FlushKeeps(s, step);
      case Snapshot(_) => FlushKeeps(s, step);
      case Publish(_) => FlushKeeps(s, step);
      case Release(_) => FlushKeeps(s, step);
      case _ => StopKeeps(s, step);
    }
  }

  // ----- whole runs

  function Start(batchSize: nat, maxQueueSize: nat, stopper: nat): State {
    State(batchSize, maxQueueSize, [], true, false, false, false, None, map[], None, NotStopping, stopper, 0, [], [],
          0, 0)
  }

  ghost predicate Run(s: State, steps: seq<Step>)
    decreases |steps|
  {
    steps == [] || (Enabled(s, steps[0]) && Run(Apply(s, steps[0]), steps[1..]))
  }

  ghost function After(s: State, steps: seq<Step>): State
    requires Run(s, steps)
    decreases |steps|
  {
    if steps == [] then s else After(Apply(s, steps[0]), steps[1..])
  }

  lemma StepFrame(s: State, step: Step)
    requires Inv(s) && Enabled(s, step)
    ensures var s' := Apply(s, step);
            && (!s.accepting ==> s'.admitted == s.admitted && !s'.accepting)
            && (s.stop.Closed? ==> s'.stop == s.stop && s'.fates == s.fates && s'.began == s.began)
            && s'.batchSize == s.batchSize && s'.maxQueueSize == s.maxQueueSize
  {
  }

  lemma {:induction false} RunKeeps(s: State, steps: seq<Step>)
    requires Inv(s) && Run(s, steps)
    ensures Inv(After(s, steps))
    ensures !s.accepting ==> After(s, steps).admitted == s.admitted && !After(s, steps).accepting
    ensures s.stop.Closed? ==> After(s, steps).stop == s.stop && After(s, steps).fates == s.fates
                               && After(s, steps).began == s.began
    ensures After(s, steps).batchSize == s.batchSize && After(s, steps).maxQueueSize == s.maxQueueSize
    decreases |steps|
  {
    if steps != [] {
      StepKeeps(s, steps[0]);
      StepFrame(s, steps[0]);
      RunKeeps(Apply(s, steps[0]), steps[1..]);
    }
  }

  /** Drains never overlap, and what is queued or in flight never exceeds the queue bound by more than
      one batch. Every admitted event is settled, in flight or queued, in enqueue order. */
  lemma DrainsNeverOverlap(steps: seq<Step>, batchSize: nat, maxQueueSize: nat, stopper: nat, t: nat, u: nat)
    requires batchSize > 0 && Run(Start(batchSize, maxQueueSize, stopper), steps)
    ensures var s := After(Start(batchSize, maxQueueSize, stopper), steps);
            && (t in s.drains && u in s.drains ==> t == u)
            && |s.fates| <= |s.admitted|
            && AllInFlight(s) + s.queue == s.admitted[|s.fates|..]
            && |AllInFlight(s) + s.queue| <= maxQueueSize + batchSize
  {
    RunKeeps(Start(batchSize, maxQueueSize, stopper), steps);
  }

  /** Once intake is fenced no event is admitted any more. */
  lemma NothingAdmittedAfterFence(s: State, later: seq<Step>)
    requires Inv(s) && !s.accepting && Run(s, later)
    ensures After(s, later).admitted == s.admitted
  {
    RunKeeps(s, later);
  }

  /** Shutdown accounting. When stop has closed the queue, and in every state after it, the reported
      undelivered events are exactly the admitted events that were neither accepted nor rejected, in
      enqueue order, and the reported counts are exactly those of the events settled since the reported
      drain began. */
  lemma ShutdownReportIsExact(steps: seq<Step>, later: seq<Step>, batchSize: nat, maxQueueSize: nat, stopper: nat)
    requires batchSize > 0 && Run(Start(batchSize, maxQueueSize, stopper), steps)
    requires After(Start(batchSize, maxQueueSize, stopper), steps).stop.Closed?
    requires Run(After(Start(batchSize, maxQueueSize, stopper), steps), later)
    ensures var s := After(Start(batchSize, maxQueueSize, stopper), steps);
            var t := After(s, later);
            && t.stop == s.stop
            && |t.fates| <= |t.admitted|
            && t.stop.report.undelivered == t.admitted[|t.fates|..] == t.queue
            && t.began == s.began <= |t.fates|
            && t.stop.report.accepted == Count(t.fates[t.began..], Taken)
            && t.stop.report.rejected == Count(t.fates[t.began..], Dropped)
            && t.stop.report.accepted + t.stop.report.rejected == |t.fates| - t.began
  {
    var s := After(Start(batchSize, maxQueueSize, stopper), steps);
    RunKeeps(Start(batchSize, maxQueueSize, stopper), steps);
    RunKeeps(s, later);
    assert AllInFlight(After(s, later)) + After(s, later).queue == After(s, later).queue;
    CountsTotal(After(s, later).fates[s.began..]);
  }

  // ----- what a batch costs

  lemma {:induction false} HttpIsBounded(line: Line, n: nat, sends: seq<seq<Event>>)
    ensures |sends| <= HttpRequests(line, n, sends) <= |sends| * (|line.backoff| + 1)
    decreases |sends|
  {
    if sends != [] {
      PostIsBounded(Wire(line, n, sends[0]), line.interruptible, line.backoff, 0, Link(0, []));
      HttpIsBounded(line, n + 1, sends[1..]);
      assert |sends| * (|line.backoff| + 1) == (|line.backoff| + 1) + (|sends| - 1) * (|line.backoff| + 1);
    }
  }

  /** Sending a batch costs at least one HTTP request and at most 2n - 1 sends with all their retries. */
  lemma BatchCostIsBounded(s: State, t: nat, line: Line)
    requires Inv(s) && Enabled(s, Settle(t, line))
    ensures var s', n := Apply(s, Settle(t, line)), |s.drains[t].batch|;
            && 1 <= s'.sends - s.sends <= 2 * n - 1
            && s'.sends - s.sends <= s'.http - s.http <= (s'.sends - s.sends) * (|line.backoff| + 1)
  {
    assert DrainOk(s, t, s.drains[t]);
    SendsAreBounded(s.drains[t].batch, AsService(line), s.sends);
    HttpIsBounded(line, s.sends, Deliver(s.drains[t].batch, AsService(line), s.sends).sends);
  }

  /** A batch taken after the stop signal is sent once, with whatever retries that send makes. */
  lemma SignalledBatchIsSentOnce(s: State, t: nat, line: Line)
    requires Inv(s) && Enabled(s, Settle(t, line)) && s.drains[t].afterStop
    ensures Apply(s, Settle(t, line)).sends == s.sends + 1
    ensures Deliver(s.drains[t].batch, AsService(line), s.sends).sends == [s.drains[t].batch]
  {
    assert StopSeen(line, s.sends + 1);
    assert Stopping(AsService(line), s.sends + 1);
  }

  /** In every reachable state, a batch taken after retries were cancelled costs exactly one HTTP request. */
  lemma CancelledBatchCostsOneRequest(steps: seq<Step>, batchSize: nat, maxQueueSize: nat, stopper: nat, t: nat,
                                      line: Line)
    requires batchSize > 0 && Run(Start(batchSize, maxQueueSize, stopper), steps)
    requires var s := After(Start(batchSize, maxQueueSize, stopper), steps);
             Enabled(s, Settle(t, line)) && s.drains[t].afterCancel
    ensures var s := After(Start(batchSize, maxQueueSize, stopper), steps);
            Apply(s, Settle(t, line)).http == s.http + 1
  {
    var s := After(Start(batchSize, maxQueueSize, stopper), steps);
    RunKeeps(Start(batchSize, maxQueueSize, stopper), steps);
    assert DrainOk(s, t, s.drains[t]);
    NothingLeftCostsOne(s, t, line);
  }

  /** In every reachable state, every payload sent fits one request. */
  lemma PayloadsFit(steps: seq<Step>, batchSize: nat, maxQueueSize: nat, stopper: nat, t: nat, line: Line)
    requires batchSize > 0 && Run(Start(batchSize, maxQueueSize, stopper), steps)
    requires Enabled(After(Start(batchSize, maxQueueSize, stopper), steps), Settle(t, line))
    ensures var s := After(Start(batchSize, maxQueueSize, stopper), steps);
            var d := Deliver(s.drains[t].batch, AsService(line), s.sends);
            forall b <- d.sends :: RequestBytes(b) <= MAX_REQUEST_BYTES
  {
    var s := After(Start(batchSize, maxQueueSize, stopper), steps);
    RunKeeps(Start(batchSize, maxQueueSize, stopper), steps);
    assert DrainOk(s, t, s.drains[t]);
    SendsFit(s.drains[t].batch, AsService(line), s.sends);
  }

  // ----- the window before cancellation

  /** What the network and the flags can make of a batch. */
  ghost predicate AlwaysCostsOne(s: State, t: nat, backoff: seq<real>) {
    forall line: Line :: line.backoff == backoff && Enabled(s, Settle(t, line))
        ==> Apply(s, Settle(t, line)).http == s.http + 1
  }

  /** Taken after cancellation, or nothing is left to retry or to bisect. */
  predicate NothingLeft(d: Drain, backoff: seq<real>)
    requires d.Sending?
  {
    d.afterCancel || (backoff == [] && (d.afterStop || |d.batch| == 1))
  }

  /** A batch in flight is certain to cost one HTTP request if and only if it was taken after retries were
      cancelled, or there is no retry schedule and it was taken after the stop signal or is a single event. */
  lemma CostsOneExactlyWhenNothingLeft(s: State, t: nat, backoff: seq<real>)
    requires Inv(s) && t in s.drains && s.drains[t].Sending?
    ensures AlwaysCostsOne(s, t, backoff) <==> NothingLeft(s.drains[t], backoff)
  {
    assert DrainOk(s, t, s.drains[t]);
    if NothingLeft(s.drains[t], backoff) {
      forall line: Line | line.backoff == backoff && Enabled(s, Settle(t, line))
        ensures Apply(s, Settle(t, line)).http == s.http + 1
      {
        NothingLeftCostsOne(s, t, line);
      }
    } else if backoff != [] {
      FlakyLineRetries(s, t, backoff);
    } else {
      PickyLineBisects(s, t);
    }
  }

  lemma NothingLeftCostsOne(s: State, t: nat, line: Line)
    requires Inv(s) && Enabled(s, Settle(t, line)) && NothingLeft(s.drains[t], line.backoff)
    ensures Apply(s, Settle(t, line)).http == s.http + 1
  {
    var d := s.drains[t];
    assert DrainOk(s, t, d);
    BatchCostIsBounded(s, t, line);
    if d.afterStop { SignalledBatchIsSentOnce(s, t, line); }
    if d.afterCancel { CancelledSendCostsOne(line, s.sends, d.batch); }
  }

  lemma CancelledSendCostsOne(line: Line, n: nat, batch: seq<Event>)
    requires FlagsAreFinal(line) && CancelAlways(line, true)
    ensures HttpRequests(line, n, [batch]) == 1
  {
    assert CancelledAt(Wire(line, n, batch), 0);
    CancelledPostsOnce(Wire(line, n, batch), line.interruptible, line.backoff, Link(0, []));
    assert [batch][1..] == [];
  }

  /** A network that fails once and then accepts. */
  function FlakyLine(backoff: seq<real>, stopping: bool): Line {
    Line(backoff, true,
         (n: nat, b: seq<Event>) => Network((a: nat) => if a == 0 then NetworkError else Status(200, None),
                                            (c: nat) => false),
         (n: nat) => stopping)
  }

  lemma FlakySend(backoff: seq<real>, stopping: bool, n: nat, batch: seq<Event>)
    requires backoff != []
    ensures Send(FlakyLine(backoff, stopping), n, batch).requests == 2
    ensures Send(FlakyLine(backoff, stopping), n, batch).outcome == Accepted
  {
    var net := Wire(FlakyLine(backoff, stopping), n, batch);
    assert ResponseTo(net, 0) == NetworkError && ResponseTo(net, 1) == Status(200, None);
    assert !CancelledAt(net, 0) && !CancelledAt(net, 1);
    var pause := Between(net, true, backoff, 0, Link(0, []));
    assert pause.ok;
    assert Post(net, true, backoff, 1, pause.link) == Posted(Accepted, 2, pause.link);
  }

  lemma FlakyLineRetries(s: State, t: nat, backoff: seq<real>)
    requires Inv(s) && t in s.drains && s.drains[t].Sending? && !s.drains[t].afterCancel && backoff != []
    ensures !AlwaysCostsOne(s, t, backoff)
  {
    var d := s.drains[t];
    assert DrainOk(s, t, d);
    var line := FlakyLine(backoff, d.afterStop);
    assert Observes(s, d, line);
    FlakySend(backoff, d.afterStop, s.sends, d.batch);
    assert Reply(AsService(line), s.sends, d.batch) == Accepted;
    assert Deliver(d.batch, AsService(line), s.sends).sends == [d.batch] && [d.batch][1..] == [];
    assert HttpRequests(line, s.sends, [d.batch]) == 2;
    assert Enabled(s, Settle(t, line)) && Apply(s, Settle(t, line)).http == s.http + 2;
  }

  lemma PickyLineBisects(s: State, t: nat)
    requires Inv(s) && t in s.drains && s.drains[t].Sending? && !s.drains[t].afterStop && |s.drains[t].batch| > 1
    ensures !AlwaysCostsOne(s, t, [])
  {
    var d, line := s.drains[t], PickyLine();
    assert DrainOk(s, t, d);
    assert Observes(s, d, line);
    assert Reply(AsService(line), s.sends, d.batch) == PayloadRejected;
    var half := d.batch[..|d.batch| / 2];
    SendsAreBounded(half, AsService(line), s.sends + 1);
    BatchCostIsBounded(s, t, line);
    assert !Stopping(AsService(line), s.sends + 1);
    var halves := DeliverHalves(d.batch, AsService(line), s.sends + 1);
    assert |halves.sends| >= |Deliver(half, AsService(line), s.sends + 1).sends|;
    assert Deliver(d.batch, AsService(line), s.sends).sends == [d.batch] + halves.sends;
    assert Enabled(s, Settle(t, line));
  }

  lemma {:induction false} RunSnoc(s: State, steps: seq<Step>, step: Step)
    requires Run(s, steps) && Enabled(After(s, steps), step)
    ensures Run(s, steps + [step]) && After(s, steps + [step]) == Apply(After(s, steps), step)
    decreases |steps|
  {
    if steps == [] {
      assert (steps + [step])[1..] == [];
    } else {
      assert (steps + [step])[1..] == steps[1..] + [step];
      RunSnoc(Apply(s, steps[0]), steps[1..], step);
    }
  }

  /** A server that refuses payloads of several events, reached over a sound network. */
  function PickyLine(): Line {
    Line([], true,
         (n: nat, b: seq<Event>) => Network((a: nat) => Status(if |b| > 1 then 413 else 200, None), (c: nat) => false),
         (n: nat) => false)
  }

  /** Two events of one byte, taken by a flush between the fence and the stop signal. */
  function FencedState(): State {
    var e := Event(0, 1);
    Start(2, 2, 9).(accepting := false, drainActive := true, lock := Some(0), stop := Fenced, admitted := [e, e],
      drains := map[0 := Sending(0, 0, 0, [e, e], false, false)])
  }

  lemma FencedQueueIsReachable(s: State, e: Event) returns (steps: seq<Step>)
    requires s == Start(2, 2, 9) && e == Event(0, 1)
    ensures Run(s, steps)
    ensures After(s, steps) == s.(queue := [e, e], admitted := [e, e], accepting := false, stop := Fenced)
  {
    steps := [];
    RunSnoc(s, steps, Admit(e));
    steps := steps + [Admit(e)];
    RunSnoc(s, steps, Admit(e));
    steps := steps + [Admit(e)];
    assert After(s, steps) == s.(queue := [e, e], admitted := [e, e]);
    RunSnoc(s, steps, Fence);
    steps := steps + [Fence];
  }

  lemma FencedStateIsReachable() returns (steps: seq<Step>)
    ensures Run(Start(2, 2, 9), steps) && After(Start(2, 2, 9), steps) == FencedState()
  {
    var s, e := Start(2, 2, 9), Event(0, 1);
    steps := FencedQueueIsReachable(s, e);
    RunSnoc(s, steps, Acquire(0));
    steps := steps + [Acquire(0)];
    RunSnoc(s, steps, Decide(0));
    steps := steps + [Decide(0)];
    var ready := After(s, steps);
    assert ready.queue == [e, e] && ready.drains == map[0 := Ready(0, 0, 0)];
    RunSnoc(s, steps, Take(0));
    steps := steps + [Take(0)];
    TwoFit(e);
    assert ready.queue[..2] == [e, e] && ready.queue[2..] == [];
  }

  lemma TwoFit(e: Event)
    requires e.size == 1
    ensures FrontSize([e, e], 2, 1) == 2
  {
    assert [e, e][..2] == [e, e] && [e, e][..1] == [e] && [e][..0] == [];
    assert Sizes([e, e]) == Sizes([e]) + 1 && Sizes([e]) == Sizes([]) + 1;
  }

  /** Such a batch is bisected like any other: two events cost three HTTP requests. */
  lemma FencedBatchCanCostMore() returns (steps: seq<Step>)
    ensures Run(Start(2, 2, 9), steps)
    ensures var s := After(Start(2, 2, 9), steps);
            && s.stop.Fenced? && Enabled(s, Settle(0, PickyLine()))
            && Apply(s, Settle(0, PickyLine())).http == s.http + 3
  {
    steps := FencedStateIsReachable();
    var s, line, e := FencedState(), PickyLine(), Event(0, 1);
    var service := AsService(line);
    assert Reply(service, 0, [e, e]) == PayloadRejected && Reply(service, 1, [e]) == Accepted
        && Reply(service, 2, [e]) == Accepted;
    assert [e, e][..1] == [e] && [e, e][1..] == [e];
    assert Deliver([e], service, 1).sends == [[e]] && Deliver([e], service, 2).sends == [[e]];
    assert Deliver([e, e], service, 0).sends == [[e, e], [e], [e]];
    ThreeRequests(line, e);
  }

  lemma ThreeRequests(line: Line, e: Event)
    requires line == PickyLine()
    ensures HttpRequests(line, 0, [[e, e], [e], [e]]) == 3
  {
    assert [[e, e], [e], [e]][1..] == [[e], [e]] && [[e], [e]][1..] == [[e]] && [[e]][1..] == [];
    assert HttpRequests(line, 2, [[e]]) == 1;
    assert HttpRequests(line, 1, [[e], [e]]) == 2;
  }

  // ----- stop completes

  /** A client whose retries are cancelled and whose network is gone, once stopping. */
  function DeadLine(): Line {
    Line([], true, (n: nat, b: seq<Event>) => Network((a: nat) => NetworkError, (c: nat) => true), (n: nat) => true)
  }

  lemma DeadLineRetries(batch: seq<Event>, n: nat)
    ensures Deliver(batch, AsService(DeadLine()), n) == Delivery([], batch, [batch])
    ensures HttpRequests(DeadLine(), n, [batch]) == 1
  {
    var net := Wire(DeadLine(), n, batch);
    assert ResponseTo(net, 0) == NetworkError && CancelledAt(net, 0);
    assert Send(DeadLine(), n, batch).outcome == Retryable && Send(DeadLine(), n, batch).requests == 1;
    assert Reply(AsService(DeadLine()), n, batch) == Retryable && [batch][1..] == [];
  }

  /** Fence, signal, cancellation and the look, up to the stop's own turn to drain. */
  lemma StopBegins(s: State) returns (steps: seq<Step>)
    requires Inv(s) && s.lock.None? && s.stop.NotStopping?
    ensures Run(s, steps)
    ensures After(s, steps) == s.(accepting := false, stopping := true, cancelled := true, stop := Looked(false),
                                  began := |s.fates|, lock := Some(s.stopper),
                                  drains := map[s.stopper := Ready(|s.fates|, 0, 0)])
  {
    assert s.drains == map[];
    steps := [];
    RunSnoc(s, steps, Fence);
    steps := steps + [Fence];
    RunSnoc(s, steps, Signal);
    steps := steps + [Signal];
    RunSnoc(s, steps, Cancel);
    steps := steps + [Cancel];
    RunSnoc(s, steps, Look);
    steps := steps + [Look];
    RunSnoc(s, steps, StopAcquire);
    steps := steps + [StopAcquire];
  }

  /** Without a server, the stop's drain sends the front batch once and returns it. */
  lemma StopSends(u: State, v: State)
    requires Inv(u) && u.stopping && u.cancelled && u.queue != [] && u.stopper in u.drains
    requires u.drains == map[u.stopper := Ready(|u.fates|, 0, 0)] && v == Apply(u, Take(u.stopper))
    ensures Enabled(v, Settle(u.stopper, DeadLine()))
    ensures Apply(v, Settle(u.stopper, DeadLine())) ==
            u.(drains := map[u.stopper := Reporting(|u.fates|, 0, 0)], sends := u.sends + 1, http := u.http + 1)
  {
    var k := FrontSize(u.queue, u.batchSize, 1);
    assert Observes(v, v.drains[u.stopper], DeadLine());
    DeadLineRetries(u.queue[..k], u.sends);
    assert u.queue[..k] + u.queue[k..] == u.queue && u.fates + [] == u.fates && k > 0;
  }

  lemma StopDrains(s: State, steps: seq<Step>, u: State) returns (more: seq<Step>)
    requires Run(s, steps) && u == After(s, steps) && Inv(u) && u.stopping && u.cancelled && u.stopper in u.drains
    requires u.drains == map[u.stopper := Ready(|u.fates|, 0, 0)]
    ensures Run(s, more)
    ensures var v := After(s, more);
            v == u.(drains := map[u.stopper := Reporting(|u.fates|, 0, 0)], sends := v.sends, http := v.http)
  {
    var p := u.stopper;
    if u.queue == [] {
      RunSnoc(s, steps, Exhaust(p));
      more := steps + [Exhaust(p)];
    } else {
      RunSnoc(s, steps, Take(p));
      StopSends(u, Apply(u, Take(p)));
      RunSnoc(s, steps + [Take(p)], Settle(p, DeadLine()));
      more := steps + [Take(p)] + [Settle(p, DeadLine())];
    }
  }

  /** A drain stops for one of two causes: it finds the queue empty, or the batch it sent comes back in part; a batch
      settled as a whole is followed by the next one. */
  lemma DrainStopsForCause(s: State, step: Step, t: nat)
    requires Enabled(s, step) && t in s.drains && (s.drains[t].Ready? || s.drains[t].Sending?)
    requires t in Apply(s, step).drains && Apply(s, step).drains[t].Reporting?
    ensures || (step == Exhaust(t) && s.queue == [])
            || (&& step.Settle? && step.t == t
                && Deliver(s.drains[t].batch, AsService(step.line), s.sends).retryable != [])
  {
  }

  /** From every reachable state in which nobody drains, stop can run to its end, with or without a server, and
      reports every event that is queued as undelivered. */
  lemma ShutdownCanComplete(s: State) returns (steps: seq<Step>)
    requires Inv(s) && s.lock.None? && s.stop.NotStopping?
    ensures Run(s, steps)
    ensures After(s, steps).stop == Closed(Report(0, 0, s.queue))
  {
    steps := StopBegins(s);
    RunKeeps(s, steps);
    steps := StopDrains(s, steps, After(s, steps));
    var p := s.stopper;
    RunSnoc(s, steps, Snapshot(p));
    steps := steps + [Snapshot(p)];
    RunSnoc(s, steps, StopClose);
    steps := steps + [StopClose];
  }
}
