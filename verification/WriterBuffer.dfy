/** The writer's in-memory buffer: flushing it through isolation, queueing acknowledgements, and
    taking in deliveries without ever exceeding its bound. */
module WriterBuffer {
  import opened Options
  import opened Isolation
  import Delivery
  import Safety = DeliverySafety

  /** A delivery as it arrives; an ill-formed one is rejected instead of buffered. */
  datatype Incoming = Incoming(event: Buffered, wellFormed: bool)

  /** What the outside answers: the driver, and, on the n-th occasion anything else is asked, whether a
      flush is due, whether finalization succeeds, and whether a rejection gets fully recorded. */
  datatype Environment = Environment(
    driver: Driver,
    retryDue: nat -> bool,
    acksSucceed: nat -> bool,
    rejectRecorded: nat -> bool
  )

  /** `stored`, `rejected` and `acked` are histories: events ClickHouse accepted (or markers), events handed
      to the dead-letter path, with the occasion of each, and identifiers finalized. `calls` and `asked`
      count uses of the environment. */
  datatype Memory = Memory(
    buffer: seq<Buffered>,
    durable: seq<nat>,
    stored: seq<Buffered>,
    rejected: seq<Buffered>,
    rejectedAt: seq<nat>,
    acked: seq<nat>,
    calls: nat,
    asked: nat
  )

  predicate At(occasions: nat -> bool, n: nat) {
    occasions(n)
  }

  function IdsOf(events: seq<Buffered>): seq<nat> {
    if events == [] then [] else [events[0].id] + IdsOf(events[1..])
  }

  // ----- what each operation does, as a function of the memory

  /** Dead-letters one event; it becomes acknowledgeable only when the rejection is fully recorded. */
  function Reject(m: Memory, env: Environment, event: Buffered): Memory {
    m.(rejected := m.rejected + [event], rejectedAt := m.rejectedAt + [m.asked], asked := m.asked + 1,
    durable := if At(env.rejectRecorded, m.asked) then Delivery.Enqueue(m.durable, event.id) else m.durable)
  }

  function RejectAll(m: Memory, env: Environment, events: seq<Buffered>): Memory
    decreases |events|
  {
    if events == [] then m else RejectAll(Reject(m, env, events[0]), env, events[1..])
  }

  /** The events of a batch that meet one fate. */
  function With(batch: seq<Buffered>, driver: Driver, calls: nat, fate: Fate): seq<Buffered> {
    OneFateEach(batch, driver, calls);
    Pick(batch, Isolate(batch, driver, calls).fates, fate)
  }

  function AfterInsert(m: Memory, env: Environment, batch: seq<Buffered>): Memory {
    RejectAll(m, env, With(batch, env.driver, m.calls, Dead)).(calls := Isolate(batch, env.driver, m.calls).calls)
  }

  /** The insert of one flush: retries go first, then what arrived meanwhile. */
  function AfterFlushInsert(m: Memory, env: Environment, arrivals: seq<Buffered>): Memory {
    var ok := With(m.buffer, env.driver, m.calls, Durable);
    var retry := With(m.buffer, env.driver, m.calls, Retry);
    var next := AfterInsert(m, env, m.buffer);
    next.(buffer := retry + arrivals, durable := Delivery.EnqueueAll(next.durable, IdsOf(ok)), stored := m.stored + ok)
  }

  function AfterAck(m: Memory, env: Environment): Memory {
    if m.durable == [] then m
    else if At(env.acksSucceed, m.asked) then m.(asked := m.asked + 1, durable := [], acked := m.acked + m.durable)
    else m.(asked := m.asked + 1)
  }

  function AfterFlush(m: Memory, env: Environment, arrivals: seq<Buffered>): Memory {
    var acked := AfterAck(m, env);
    if m.buffer == [] then acked.(buffer := arrivals)
    else
      var inserted := AfterFlushInsert(acked, env, arrivals);
      if acked.durable == [] then AfterAck(inserted, env) else inserted
  }

  /** A flush succeeds when nothing is left to retry and nothing to acknowledge. */
  predicate FlushSucceeds(m: Memory, env: Environment, arrivals: seq<Buffered>) {
    var after := AfterFlush(m, env, arrivals);
    after.buffer == arrivals && after.durable == []
  }

  /** Whether an operation went through, and the memory it leaves. */
  datatype Step = Step(ok: bool, memory: Memory)

  /** A full buffer is flushed if a flush is due. */
  function Room(m: Memory, env: Environment): Step {
    var m1 := m.(asked := m.asked + 1);
    if !At(env.retryDue, m.asked) then Step(false, m1) else Step(FlushSucceeds(m1, env, []), AfterFlush(m1, env, []))
  }

  predicate Full(m: Memory, size: nat) {
    |m.buffer| >= size
  }

  /** One delivery: an ill-formed one is rejected, a well-formed one is buffered if there is or can be
      made room. */
  function Take(m: Memory, env: Environment, size: nat, message: Incoming): Step {
    if !message.wellFormed then Step(true, Reject(m, env, message.event))
    else
      var room := if Full(m, size) then Room(m, env) else Step(true, m);
      if room.ok then Step(true, room.memory.(buffer := room.memory.buffer + [message.event])) else room
  }

  /** How many deliveries were taken in, how many of them were buffered, and the memory left. */
  datatype Progress = Progress(taken: nat, buffered: nat, memory: Memory)

  function TakeAll(m: Memory, env: Environment, size: nat, incoming: seq<Incoming>): Progress
    decreases |incoming|
  {
    if incoming == [] then Progress(0, 0, m)
    else
      var first := Take(m, env, size, incoming[0]);
      if !first.ok then Progress(0, 0, first.memory)
      else
        var rest := TakeAll(first.memory, env, size, incoming[1..]);
        Progress(rest.taken + 1, rest.buffered + (if incoming[0].wellFormed then 1 else 0), rest.memory)
  }

  /** Intake of a whole read: a full buffer is flushed at the end, if a flush is due. */
  function Process(m: Memory, env: Environment, size: nat, incoming: seq<Incoming>): Progress {
    var p := TakeAll(m, env, size, incoming);
    if p.taken == |incoming| && Full(p.memory, size) then p.(memory := Room(p.memory, env).memory) else p
  }

  /** The result of inserting a batch with isolation. */
  predicate Isolated(m: Memory, m': Memory, env: Environment, batch: seq<Buffered>, ok: seq<Buffered>,
                     retry: seq<Buffered>, transient: bool) {
    && ok == With(batch, env.driver, m.calls, Durable) && retry == With(batch, env.driver, m.calls, Retry)
    && (transient <==> retry != []) && m' == AfterInsert(m, env, batch)
  }

  /** The same, as the two halves of a batch give it. */
  predicate Halved(m: Memory, m': Memory, env: Environment, batch: seq<Buffered>, ok: seq<Buffered>,
                   retry: seq<Buffered>, transient: bool) {
    var left, right := batch[..|batch| / 2], batch[|batch| / 2..];
    var m1 := AfterInsert(m, env, left);
    && ok == With(left, env.driver, m.calls, Durable) + With(right, env.driver, m1.calls, Durable)
    && retry == With(left, env.driver, m.calls, Retry) + With(right, env.driver, m1.calls, Retry)
    && (transient <==> retry != []) && m' == AfterInsert(m1, env, right)
  }

  // ----- the process itself

  class Writer {
    const env: Environment
    const bufferSize: nat
    var buffer: seq<Buffered>
    var durable: seq<nat>
    var stored: seq<Buffered>
    var rejected: seq<Buffered>
    var rejectedAt: seq<nat>
    var acked: seq<nat>
    var calls: nat
    var asked: nat

    function Now(): Memory
      reads this
    {
      Memory(buffer, durable, stored, rejected, rejectedAt, acked, calls, asked)
    }

    ghost predicate Valid()
      reads this
    {
      |buffer| <= bufferSize && bufferSize > 0
    }

    constructor (env: Environment, bufferSize: nat)
      requires bufferSize > 0
      ensures Valid() && this.env == env && this.bufferSize == bufferSize
      ensures Now() == Memory([], [], [], [], [], [], 0, 0)
    {
      this.env := env;
      this.bufferSize := bufferSize;
      buffer, durable, stored, rejected, rejectedAt, acked, calls, asked := [], [], [], [], [], [], 0, 0;
    }

    /** Queues deliveries for acknowledgement, each at most once, keeping order. */
    method QueueDurableAck(events: seq<Buffered>)
      modifies this`durable
      ensures durable == Delivery.EnqueueAll(old(durable), IdsOf(events))
    {
      for k := 0 to |events|
        invariant Delivery.EnqueueAll(durable, IdsOf(events[k..])) == Delivery.EnqueueAll(old(durable), IdsOf(events))
      {
        assert events[k..][1..] == events[k + 1..];
        if events[k].id !in durable {
          durable := durable + [events[k].id];
        }
      }
    }

    method DeadLetter(event: Buffered)
      modifies this`durable, this`rejected, this`rejectedAt, this`asked
      ensures Now() == Reject(old(Now()), env, event)
    {
      rejected, rejectedAt := rejected + [event], rejectedAt + [asked];
      var recorded := At(env.rejectRecorded, asked);
      asked := asked + 1;
      if recorded && event.id !in durable {
        durable := durable + [event.id];
      }
    }

    /** One native insert that settles the whole batch. */
    method Settle(batch: seq<Buffered>, attempt: Attempt)
      returns (ok: seq<Buffered>, retry: seq<Buffered>, transient: bool)
      requires attempt.RowRejected? ==> |batch| == 1
      modifies this`durable, this`rejected, this`rejectedAt, this`asked
      ensures ok == if attempt.Inserted? then batch else []
      ensures retry == if attempt.Unavailable? then batch else []
      ensures transient == attempt.Unavailable?
      ensures Now() == RejectAll(old(Now()), env, if attempt.RowRejected? then batch else [])
    {
      ok, retry, transient := [], [], false;
      match attempt {
        case Inserted => ok := batch;
        case Unavailable => retry, transient := batch, true;
        case RowRejected =>
          DeadLetter(batch[0]);
          assert batch[1..] == [];
      }
    }

    /** Inserts a batch, isolating rows the driver cannot encode. The lists are the events with each
        fate, in order; the dead ones have been handed to the dead-letter path. */
    method InsertOrIsolate(batch: seq<Buffered>) returns (ok: seq<Buffered>, retry: seq<Buffered>, transient: bool)
      modifies this`calls, this`durable, this`rejected, this`rejectedAt, this`asked
      ensures Isolated(old(Now()), Now(), env, batch, ok, retry, transient)
      decreases |batch|, 3
    {
      if MarkersOnly(batch) {
        SettledFates(batch, env.driver, calls);
        SettledMemory(Now(), env, batch);
        return batch, [], false;
      }
      var attempt := Ask(env.driver, calls, batch);
      if !attempt.RowRejected? || |batch| == 1 {
        ok, retry, transient := InsertWhole(batch, attempt);
      } else {
        ok, retry, transient := InsertSplit(batch);
      }
    }

    /** An insert whose outcome settles the whole batch. */
    method InsertWhole(batch: seq<Buffered>, attempt: Attempt)
      returns (ok: seq<Buffered>, retry: seq<Buffered>, transient: bool)
      requires !MarkersOnly(batch) && attempt == Ask(env.driver, calls, batch)
      requires !attempt.RowRejected? || |batch| == 1
      modifies this`calls, this`durable, this`rejected, this`rejectedAt, this`asked
      ensures Isolated(old(Now()), Now(), env, batch, ok, retry, transient)
    {
      SettledFates(batch, env.driver, calls);
      SettledMemory(Now(), env, batch);
      calls := calls + 1;
      ok, retry, transient := Settle(batch, attempt);
    }

    /** An insert that was refused for a row of several. */
    method InsertSplit(batch: seq<Buffered>) returns (ok: seq<Buffered>, retry: seq<Buffered>, transient: bool)
      requires !MarkersOnly(batch) && Ask(env.driver, calls, batch).RowRejected? && |batch| > 1
      modifies this`calls, this`durable, this`rejected, this`rejectedAt, this`asked
      ensures Isolated(old(Now()), Now(), env, batch, ok, retry, transient)
      decreases |batch|, 2
    {
      calls := calls + 1;
      ok, retry, transient := IsolateHalves(batch, old(Now()));
    }

    /** The halves of a batch refused in the memory `m`, told as the isolation of the whole. */
    method IsolateHalves(batch: seq<Buffered>, ghost m: Memory)
      returns (ok: seq<Buffered>, retry: seq<Buffered>, transient: bool)
      requires !MarkersOnly(batch) && Ask(env.driver, m.calls, batch).RowRejected? && |batch| > 1
      requires Now() == m.(calls := m.calls + 1)
      modifies this`calls, this`durable, this`rejected, this`rejectedAt, this`asked
      ensures Isolated(m, Now(), env, batch, ok, retry, transient)
      decreases |batch|, 1
    {
      ok, retry, transient := InsertHalves(batch);
      HalvedIsIsolated(m, Now(), env, batch, ok, retry, transient);
    }

    /** Isolates the two halves of a refused batch, left before right. */
    method InsertHalves(batch: seq<Buffered>) returns (ok: seq<Buffered>, retry: seq<Buffered>, transient: bool)
      requires |batch| > 1
      modifies this`calls, this`durable, this`rejected, this`rejectedAt, this`asked
      ensures Halved(old(Now()), Now(), env, batch, ok, retry, transient)
      decreases |batch|, 0
    {
      var mid := |batch| / 2;
      var okL, retryL, transientL := InsertOrIsolate(batch[..mid]);
      var okR, retryR, transientR := InsertOrIsolate(batch[mid..]);
      return okL + okR, retryL + retryR, transientL || transientR;
    }

    /** Finalizes the queued deliveries; on failure they stay queued. */
    method AckDurable() returns (ok: bool)
      modifies this`durable, this`acked, this`asked
      ensures Now() == AfterAck(old(Now()), env)
      ensures ok <==> durable == []
    {
      if durable == [] { return true; }
      ok := At(env.acksSucceed, asked);
      asked := asked + 1;
      if ok { durable, acked := [], acked + durable; }
    }

    /** The insert of one flush. `arrivals` are the events the consuming task appends while it runs. */
    method FlushInsert(arrivals: seq<Buffered>) returns (transient: bool)
      requires Valid() && |buffer| + |arrivals| <= bufferSize
      modifies this
      ensures Valid()
      ensures Now() == AfterFlushInsert(old(Now()), env, arrivals)
      ensures transient <==> buffer != arrivals
    {
      var batch := buffer;
      ShortRetry(batch, env.driver, calls);
      var kept, retry, failed := InsertOrIsolate(batch);
      buffer := batch + arrivals;
      assert buffer[|batch|..] == arrivals;
      buffer := retry + buffer[|batch|..];
      QueueDurableAck(kept);
      stored := stored + kept;
      transient := failed;
    }

    /** One flush: acknowledge what is durable, insert what is buffered, acknowledge again. A
        successful flush leaves only what arrived meanwhile. */
    method Flush(arrivals: seq<Buffered>) returns (ok: bool)
      requires Valid() && |buffer| + |arrivals| <= bufferSize
      modifies this
      ensures Valid()
      ensures Now() == AfterFlush(old(Now()), env, arrivals)
      ensures ok == FlushSucceeds(old(Now()), env, arrivals)
    {
      var acked := AckDurable();
      if buffer == [] {
        buffer := arrivals;
        return acked;
      }
      if !acked { StillToAcknowledge(Now(), env, arrivals); }
      var transient := FlushInsert(arrivals);
      if acked {
        acked := AckDurable();
      }
      return !transient && acked;
    }

    /** Takes in deliveries in order, as the intake function does: it stops at the first well-formed one
        that finds the buffer full when no flush is due or the flush fails; that one and all later ones
        are left pending. The buffer never exceeds its bound. */
    method ProcessMessages(incoming: seq<Incoming>) returns (buffered: nat, taken: nat)
      requires Valid()
      modifies this
      ensures Valid()
      ensures Progress(taken, buffered, Now()) == Process(old(Now()), env, bufferSize, incoming)
    {
      ghost var goal := TakeAll(Now(), env, bufferSize, incoming);
      buffered, taken := 0, 0;
      while taken < |incoming|
        invariant Valid() && taken <= |incoming|
        invariant goal == Onward(taken, buffered, TakeAll(Now(), env, bufferSize, incoming[taken..]))
      {
        TakeAllStep(Now(), env, bufferSize, incoming, taken);
        var ok := TakeOne(incoming[taken]);
        if !ok { return; }
        buffered := buffered + if incoming[taken].wellFormed then 1 else 0;
        taken := taken + 1;
      }
      if |buffer| >= bufferSize {
        var _ := MakeRoom();
      }
    }

    method TakeOne(message: Incoming) returns (ok: bool)
      requires Valid()
      modifies this
      ensures Valid()
      ensures Step(ok, Now()) == Take(old(Now()), env, bufferSize, message)
    {
      if !message.wellFormed {
        DeadLetter(message.event);
        return true;
      }
      if |buffer| >= bufferSize {
        ok := MakeRoom();
        if !ok { return; }
      }
      buffer := buffer + [message.event];
      ok := true;
    }

    /** Flushes a full buffer when a flush is due; only success lets the caller append. */
    method MakeRoom() returns (ok: bool)
      requires Valid()
      modifies this
      ensures Valid() && (ok ==> buffer == [])
      ensures Step(ok, Now()) == Room(old(Now()), env)
    {
      var due := At(env.retryDue, asked);
      asked := asked + 1;
      if !due { return false; }
      ok := FlushDue(old(Now()));
    }

    /** The flush of a full buffer, after the question whether it is due. */
    method FlushDue(ghost m: Memory) returns (ok: bool)
      requires Valid() && At(env.retryDue, m.asked) && Now() == m.(asked := m.asked + 1)
      modifies this
      ensures Valid() && (ok ==> buffer == [])
      ensures Step(ok, Now()) == Room(m, env)
    {
      ok := Flush([]);
      DueFlushIsRoom(m, env, ok, Now());
    }
  }

  lemma DueFlushIsRoom(m: Memory, env: Environment, ok: bool, m': Memory)
    requires At(env.retryDue, m.asked)
    requires m' == AfterFlush(m.(asked := m.asked + 1), env, [])
    requires ok == FlushSucceeds(m.(asked := m.asked + 1), env, [])
    ensures Step(ok, m') == Room(m, env) && (ok ==> m'.buffer == [])
  {
  }

  ghost function Onward(taken: nat, buffered: nat, rest: Progress): Progress {
    Progress(taken + rest.taken, buffered + rest.buffered, rest.memory)
  }

  lemma TakeAllStep(m: Memory, env: Environment, size: nat, incoming: seq<Incoming>, k: nat)
    requires k < |incoming|
    ensures var step := Take(m, env, size, incoming[k]);
            TakeAll(m, env, size, incoming[k..]) ==
            if !step.ok then Progress(0, 0, step.memory)
            else Onward(1, if incoming[k].wellFormed then 1 else 0, TakeAll(step.memory, env, size, incoming[k + 1..]))
  {
    assert incoming[k..][1..] == incoming[k + 1..];
  }

  // ----- when intake stops

  /** The delivery is well-formed, the buffer is full, and no room can be made. */
  predicate Blocked(m: Memory, env: Environment, size: nat, message: Incoming) {
    message.wellFormed && Full(m, size) && !Room(m, env).ok
  }

  /** The memory once the first `k` deliveries are taken in. */
  function Reached(m: Memory, env: Environment, size: nat, incoming: seq<Incoming>, k: nat): Memory
    requires k <= |incoming|
    decreases k
  {
    if k == 0 then m else Reached(Take(m, env, size, incoming[0]).memory, env, size, incoming[1..], k - 1)
  }

  /** Intake stops exactly at the first delivery that is blocked in the memory reached by then, and takes
      everything when there is none. */
  lemma {:induction false} IntakeStopsAtFirstBlocked(m: Memory, env: Environment, size: nat, incoming: seq<Incoming>)
    ensures var p := TakeAll(m, env, size, incoming);
            && p.taken <= |incoming|
            && (forall k :: 0 <= k < p.taken ==> !Blocked(Reached(m, env, size, incoming, k), env, size, incoming[k]))
            && (p.taken < |incoming| ==>
                  Blocked(Reached(m, env, size, incoming, p.taken), env, size, incoming[p.taken]))
    decreases |incoming|
  {
    if incoming != [] {
      var first := Take(m, env, size, incoming[0]);
      if first.ok {
        var rest := TakeAll(first.memory, env, size, incoming[1..]);
        IntakeStopsAtFirstBlocked(first.memory, env, size, incoming[1..]);
        forall k | 0 <= k < rest.taken + 1
          ensures !Blocked(Reached(m, env, size, incoming, k), env, size, incoming[k])
        {
          if k > 0 { assert incoming[k] == incoming[1..][k - 1]; }
        }
      }
    }
  }

  // ----- conservation

  /** Everything the process has taken responsibility for. */
  ghost function Held(m: Memory): multiset<Buffered> {
    HeldIn(m.stored, m.rejected, m.buffer)
  }

  ghost function HeldIn(stored: seq<Buffered>, rejected: seq<Buffered>, buffer: seq<Buffered>): multiset<Buffered> {
    multiset(stored) + multiset(rejected) + multiset(buffer)
  }

  ghost function Events(incoming: seq<Incoming>): multiset<Buffered> {
    if incoming == [] then multiset{} else multiset{incoming[0].event} + Events(incoming[1..])
  }

  lemma {:induction false} RejectAllHistory(m: Memory, env: Environment, events: seq<Buffered>)
    ensures var m' := RejectAll(m, env, events);
            && m'.rejected == m.rejected + events
            && m' == m.(rejected := m'.rejected, rejectedAt := m'.rejectedAt, durable := m'.durable, asked := m'.asked)
    decreases |events|
  {
    if events != [] {
      RejectAllHistory(Reject(m, env, events[0]), env, events[1..]);
      assert events == [events[0]] + events[1..];
    }
  }

  lemma InsertConserves(m: Memory, env: Environment, arrivals: seq<Buffered>)
    ensures Held(AfterFlushInsert(m, env, arrivals)) == Held(m) + multiset(arrivals)
  {
    OneFateEach(m.buffer, env.driver, m.calls);
    PicksPartition(m.buffer, Isolate(m.buffer, env.driver, m.calls).fates);
    RejectAllHistory(m, env, With(m.buffer, env.driver, m.calls, Dead));
  }

  lemma AckHolds(m: Memory, env: Environment)
    ensures Held(AfterAck(m, env)) == Held(m) && AfterAck(m, env).buffer == m.buffer
        && AfterAck(m, env).calls == m.calls
  {
  }

  /** A flush moves each event of the batch to exactly one place. */
  lemma FlushConserves(m: Memory, env: Environment, arrivals: seq<Buffered>)
    ensures Held(AfterFlush(m, env, arrivals)) == Held(m) + multiset(arrivals)
  {
    var acked := AfterAck(m, env);
    AckHolds(m, env);
    if m.buffer == [] {
      assert Held(acked.(buffer := arrivals)) == Held(acked) + multiset(arrivals);
    } else {
      InsertConserves(acked, env, arrivals);
      AckHolds(AfterFlushInsert(acked, env, arrivals), env);
    }
  }

  lemma FlushAloneConserves(m: Memory, env: Environment)
    ensures Held(AfterFlush(m, env, [])) == Held(m)
  {
    var none: seq<Buffered> := [];
    FlushConserves(m, env, none);
    assert multiset(none) == multiset{};
  }

  lemma AskingHolds(m: Memory)
    ensures Held(m.(asked := m.asked + 1)) == Held(m)
  {
  }

  lemma RoomConserves(m: Memory, env: Environment)
    ensures Held(Room(m, env).memory) == Held(m)
  {
    var m1, memory := m.(asked := m.asked + 1), Room(m, env).memory;
    AskingHolds(m);
    if At(env.retryDue, m.asked) {
      assert memory == AfterFlush(m1, env, []);
      FlushAloneConserves(m1, env);
    } else {
      assert memory == m1;
    }
  }

  lemma PushHolds(m: Memory, e: Buffered)
    ensures Held(m.(buffer := m.buffer + [e])) == Held(m) + multiset{e}
  {
  }

  lemma RejectHolds(m: Memory, env: Environment, e: Buffered)
    ensures Held(Reject(m, env, e)) == Held(m) + multiset{e}
  {
  }

  lemma TakeConserves(m: Memory, env: Environment, size: nat, message: Incoming)
    ensures var step := Take(m, env, size, message);
            Held(step.memory) == Held(m) + if step.ok then multiset{message.event} else multiset{}
  {
    if !message.wellFormed {
      RejectHolds(m, env, message.event);
    } else if Full(m, size) {
      RoomConserves(m, env);
      PushHolds(Room(m, env).memory, message.event);
    } else {
      PushHolds(m, message.event);
    }
  }

  lemma EventsCons(incoming: seq<Incoming>, n: nat)
    requires n < |incoming|
    ensures Events(incoming[..n + 1]) == multiset{incoming[0].event} + Events(incoming[1..][..n])
  {
    assert incoming[..n + 1][1..] == incoming[1..][..n];
  }

  lemma HeldWithRest(held: multiset<Buffered>, next: multiset<Buffered>, last: multiset<Buffered>,
                     incoming: seq<Incoming>, n: nat)
    requires n < |incoming| && next == held + multiset{incoming[0].event}
    requires last == next + Events(incoming[1..][..n])
    ensures last == held + Events(incoming[..n + 1])
  {
    EventsCons(incoming, n);
  }

  lemma {:induction false} TakeAllConserves(m: Memory, env: Environment, size: nat, incoming: seq<Incoming>)
    ensures var p := TakeAll(m, env, size, incoming);
            p.taken <= |incoming| && Held(p.memory) == Held(m) + Events(incoming[..p.taken])
    decreases |incoming|
  {
    if incoming != [] {
      TakeConserves(m, env, size, incoming[0]);
      var first, p := Take(m, env, size, incoming[0]), TakeAll(m, env, size, incoming);
      if first.ok {
        var rest := TakeAll(first.memory, env, size, incoming[1..]);
        assert p.taken == rest.taken + 1 && p.memory == rest.memory;
        TakeAllConserves(first.memory, env, size, incoming[1..]);
        HeldWithRest(Held(m), Held(first.memory), Held(rest.memory), incoming, rest.taken);
      } else {
        assert p.taken == 0 && p.memory == first.memory && incoming[..0] == [];
      }
    }
  }

  /** Every delivery taken in is stored, rejected or buffered, exactly once, and no other is. */
  lemma IntakeConserves(m: Memory, env: Environment, size: nat, incoming: seq<Incoming>)
    ensures var p := Process(m, env, size, incoming);
            p.taken <= |incoming| && Held(p.memory) == Held(m) + Events(incoming[..p.taken])
  {
    TakeAllConserves(m, env, size, incoming);
    RoomConserves(TakeAll(m, env, size, incoming).memory, env);
  }

  // ----- order

  ghost predicate Subsequence(a: seq<Buffered>, b: seq<Buffered>) {
    a == [] || (b != [] && ((a[0] == b[0] && Subsequence(a[1..], b[1..])) || Subsequence(a, b[1..])))
  }

  lemma {:induction false} PickIsSubsequence(batch: seq<Buffered>, fates: seq<Fate>, fate: Fate)
    requires |fates| == |batch|
    ensures Subsequence(Pick(batch, fates, fate), batch)
  {
    if batch != [] {
      PickIsSubsequence(batch[1..], fates[1..], fate);
      var rest := Pick(batch[1..], fates[1..], fate);
      assert ([batch[0]] + rest)[1..] == rest && [] + rest == rest;
    }
  }

  lemma WithIsSubsequence(batch: seq<Buffered>, driver: Driver, calls: nat, fate: Fate)
    ensures Subsequence(With(batch, driver, calls, fate), batch)
  {
    OneFateEach(batch, driver, calls);
    PickIsSubsequence(batch, Isolate(batch, driver, calls).fates, fate);
  }

  /** A flush keeps order: what is left to retry comes first, in its old order, then what arrived meanwhile; and
      what it stores and rejects, it stores and rejects in buffer order. */
  lemma FlushKeepsOrder(m: Memory, env: Environment, arrivals: seq<Buffered>) returns (retry: seq<Buffered>)
    ensures var m' := AfterFlush(m, env, arrivals);
            && m'.buffer == retry + arrivals && Subsequence(retry, m.buffer)
            && m.stored <= m'.stored && Subsequence(m'.stored[|m.stored|..], m.buffer)
            && m.rejected <= m'.rejected && Subsequence(m'.rejected[|m.rejected|..], m.buffer)
  {
    if m.buffer == [] {
      retry := [];
      assert [] + arrivals == arrivals;
      assert AfterFlush(m, env, arrivals).stored[|m.stored|..] == [];
      assert AfterFlush(m, env, arrivals).rejected[|m.rejected|..] == [];
    } else {
      var acked := AfterAck(m, env);
      var kept, dead := With(m.buffer, env.driver, m.calls, Durable), With(m.buffer, env.driver, m.calls, Dead);
      retry := With(m.buffer, env.driver, m.calls, Retry);
      WithIsSubsequence(m.buffer, env.driver, m.calls, Durable);
      WithIsSubsequence(m.buffer, env.driver, m.calls, Dead);
      WithIsSubsequence(m.buffer, env.driver, m.calls, Retry);
      FlushHistories(m, env, arrivals);
    }
  }

  lemma FlushHistories(m: Memory, env: Environment, arrivals: seq<Buffered>)
    requires m.buffer != []
    ensures var m' := AfterFlush(m, env, arrivals);
            && m'.stored == m.stored + With(m.buffer, env.driver, m.calls, Durable)
            && m'.rejected == m.rejected + With(m.buffer, env.driver, m.calls, Dead)
            && m'.buffer == With(m.buffer, env.driver, m.calls, Retry) + arrivals
  {
    var acked := AfterAck(m, env);
    RejectAllHistory(acked, env, With(m.buffer, env.driver, m.calls, Dead));
  }

  function WellFormed(incoming: seq<Incoming>): seq<Buffered> {
    if incoming == [] then []
    else (if incoming[0].wellFormed then [incoming[0].event] else []) + WellFormed(incoming[1..])
  }

  /** What intake reports as buffered is the number of well-formed deliveries it took. */
  lemma {:induction false} BufferedCountsWellFormed(m: Memory, env: Environment, size: nat, incoming: seq<Incoming>)
    ensures var p := TakeAll(m, env, size, incoming);
            p.taken <= |incoming| && p.buffered == |WellFormed(incoming[..p.taken])|
    decreases |incoming|
  {
    if incoming != [] {
      var first := Take(m, env, size, incoming[0]);
      if first.ok {
        var rest := TakeAll(first.memory, env, size, incoming[1..]);
        BufferedCountsWellFormed(first.memory, env, size, incoming[1..]);
        assert incoming[..rest.taken + 1][1..] == incoming[1..][..rest.taken];
      }
    }
  }

  /** While there is room, intake takes everything and buffers the well-formed deliveries in their order. */
  lemma {:induction false} IntakeWithRoomKeepsOrder(m: Memory, env: Environment, size: nat, incoming: seq<Incoming>)
    requires |m.buffer| + |incoming| <= size
    ensures var p := TakeAll(m, env, size, incoming);
            && p.taken == |incoming| && p.memory.buffer == m.buffer + WellFormed(incoming)
            && p.memory.stored == m.stored && p.memory.calls == m.calls
    decreases |incoming|
  {
    if incoming != [] {
      var first := Take(m, env, size, incoming[0]);
      TakeWithRoom(m, env, size, incoming[0]);
      IntakeWithRoomKeepsOrder(first.memory, env, size, incoming[1..]);
      BufferGroups(m.buffer, if incoming[0].wellFormed then [incoming[0].event] else [], WellFormed(incoming[1..]));
    } else {
      assert m.buffer + WellFormed(incoming) == m.buffer;
    }
  }

  lemma BufferGroups(buffer: seq<Buffered>, head: seq<Buffered>, rest: seq<Buffered>)
    ensures (buffer + head) + rest == buffer + (head + rest)
  {
  }

  lemma TakeWithRoom(m: Memory, env: Environment, size: nat, message: Incoming)
    requires |m.buffer| < size
    ensures var step := Take(m, env, size, message);
            && step.ok && step.memory.stored == m.stored && step.memory.calls == m.calls
            && step.memory.buffer == m.buffer + if message.wellFormed then [message.event] else []
  {
  }

  // ----- why an event is rejected

  /** A flush is made from this memory because its buffer is full, and the insert gives the event up. */
  ghost predicate GivenUp(m: Memory, env: Environment, size: nat, e: Buffered) {
    Full(m, size) && At(env.retryDue, m.asked) && e.row.Some? && e in With(m.buffer, env.driver, m.calls, Dead)
  }

  /** One of the first `taken` deliveries was the event, ill-formed; or one of the flushes that intake made,
      when so many deliveries were in, gave it up. */
  ghost predicate Caused(m: Memory, env: Environment, size: nat, incoming: seq<Incoming>, taken: nat, e: Buffered)
    requires taken <= |incoming|
  {
    || (exists i :: 0 <= i < taken && incoming[i] == Incoming(e, false))
    || (exists k :: 0 <= k <= taken && GivenUp(Reached(m, env, size, incoming, k), env, size, e))
  }

  /** Rejections only grow, and each new one has a cause. */
  ghost predicate RejectsWithCause(m: Memory, m': Memory, env: Environment, size: nat, incoming: seq<Incoming>,
                                   taken: nat)
    requires taken <= |incoming|
  {
    && m.rejected <= m'.rejected
    && forall i :: |m.rejected| <= i < |m'.rejected| ==> Caused(m, env, size, incoming, taken, m'.rejected[i])
  }

  /** What a flush from a full buffer newly rejects, it gave up. */
  lemma RoomRejects(m: Memory, env: Environment, size: nat)
    requires Full(m, size)
    ensures var m' := Room(m, env).memory;
            && m.rejected <= m'.rejected
            && forall i :: |m.rejected| <= i < |m'.rejected| ==> GivenUp(m, env, size, m'.rejected[i])
  {
    var after := Room(m, env).memory.rejected;
    if At(env.retryDue, m.asked) && m.buffer != [] {
      var dead := With(m.buffer, env.driver, m.calls, Dead);
      RejectAllHistory(AfterAck(m.(asked := m.asked + 1), env), env, dead);
      assert after == m.rejected + dead;
      forall i | |m.rejected| <= i < |after| ensures GivenUp(m, env, size, after[i]) {
        assert after[i] in dead;
        DeadHaveRows(m.buffer, env.driver, m.calls, after[i]);
      }
    } else {
      assert after == m.rejected;
    }
  }

  lemma TakeRejects(m: Memory, env: Environment, size: nat, incoming: seq<Incoming>)
    requires incoming != []
    ensures var step := Take(m, env, size, incoming[0]);
            RejectsWithCause(m, step.memory, env, size, incoming, if step.ok then 1 else 0)
  {
    var step := Take(m, env, size, incoming[0]);
    var taken := if step.ok then 1 else 0;
    assert Reached(m, env, size, incoming, 0) == m;
    if !incoming[0].wellFormed {
      assert incoming[0] == Incoming(incoming[0].event, false);
    } else if Full(m, size) {
      RoomRejects(m, env, size);
      assert step.memory.rejected == Room(m, env).memory.rejected;
    } else {
      assert step.memory.rejected == m.rejected;
    }
  }

  /** A cause among the later deliveries is a cause among all. */
  lemma CausedLater(m: Memory, env: Environment, size: nat, incoming: seq<Incoming>, taken: nat, e: Buffered)
    requires incoming != [] && taken <= |incoming[1..]|
    requires Caused(Take(m, env, size, incoming[0]).memory, env, size, incoming[1..], taken, e)
    ensures Caused(m, env, size, incoming, taken + 1, e)
  {
    var first := Take(m, env, size, incoming[0]).memory;
    if i :| 0 <= i < taken && incoming[1..][i] == Incoming(e, false) {
      assert incoming[i + 1] == Incoming(e, false);
    } else {
      var k :| 0 <= k <= taken && GivenUp(Reached(first, env, size, incoming[1..], k), env, size, e);
      assert Reached(m, env, size, incoming, k + 1) == Reached(first, env, size, incoming[1..], k);
    }
  }

  lemma CausedMore(m: Memory, env: Environment, size: nat, incoming: seq<Incoming>, few: nat, many: nat, e: Buffered)
    requires few <= many <= |incoming| && Caused(m, env, size, incoming, few, e)
    ensures Caused(m, env, size, incoming, many, e)
  {
  }

  lemma {:induction false} TakeAllRejects(m: Memory, env: Environment, size: nat, incoming: seq<Incoming>)
    ensures var p := TakeAll(m, env, size, incoming);
            p.taken <= |incoming| && RejectsWithCause(m, p.memory, env, size, incoming, p.taken)
    decreases |incoming|
  {
    if incoming != [] {
      TakeRejects(m, env, size, incoming);
      var first := Take(m, env, size, incoming[0]);
      if first.ok {
        var rest := TakeAll(first.memory, env, size, incoming[1..]);
        TakeAllRejects(first.memory, env, size, incoming[1..]);
        var taken, after := rest.taken + 1, rest.memory.rejected;
        forall i | |m.rejected| <= i < |after| ensures Caused(m, env, size, incoming, taken, after[i]) {
          if i < |first.memory.rejected| {
            assert after[i] == first.memory.rejected[i];
            CausedMore(m, env, size, incoming, 1, taken, after[i]);
          } else {
            CausedLater(m, env, size, incoming, rest.taken, after[i]);
          }
        }
      }
    }
  }

  /** Taking everything reaches the memory that is left. */
  lemma {:induction false} ReachesEnd(m: Memory, env: Environment, size: nat, incoming: seq<Incoming>)
    requires TakeAll(m, env, size, incoming).taken == |incoming|
    ensures Reached(m, env, size, incoming, |incoming|) == TakeAll(m, env, size, incoming).memory
    decreases |incoming|
  {
    if incoming != [] { ReachesEnd(Take(m, env, size, incoming[0]).memory, env, size, incoming[1..]); }
  }

  /** An event is rejected only because it was taken in ill-formed, or because one of the flushes that
      intake itself made gave its row up as dead; a well-formed marker never is. */
  lemma IntakeRejectsOnlyWithCause(m: Memory, env: Environment, size: nat, incoming: seq<Incoming>)
    ensures var p := Process(m, env, size, incoming);
            p.taken <= |incoming| && RejectsWithCause(m, p.memory, env, size, incoming, p.taken)
  {
    TakeAllRejects(m, env, size, incoming);
    var p := TakeAll(m, env, size, incoming);
    if p.taken == |incoming| && Full(p.memory, size) {
      ReachesEnd(m, env, size, incoming);
      RoomRejects(p.memory, env, size);
      var after := Room(p.memory, env).memory.rejected;
      forall i | |m.rejected| <= i < |after| ensures Caused(m, env, size, incoming, p.taken, after[i]) {
        if i < |p.memory.rejected| { assert after[i] == p.memory.rejected[i]; }
      }
    }
  }

  /** No insert gives up a marker. */
  lemma DeadHaveRows(batch: seq<Buffered>, driver: Driver, calls: nat, e: Buffered)
    requires e in With(batch, driver, calls, Dead)
    ensures e.row.Some?
  {
    OneFateEach(batch, driver, calls);
    var fates := Isolate(batch, driver, calls).fates;
    var k := PickedAt(batch, fates, Dead, e);
    if e.row.None? { MarkersNeverDie(batch, driver, calls, k); }
  }

  /** Against a driver that refuses exactly the batches with a bad row, an insert gives up exactly the bad
      rows of its batch. */
  lemma DiesExactlyWhenBad(batch: seq<Buffered>, driver: Driver, calls: nat, bad: string -> bool, e: Buffered)
    requires RefusesExactly(driver, bad)
    ensures e in With(batch, driver, calls, Dead) <==> e in batch && e.row.Some? && bad(e.row.value)
  {
    OneFateEach(batch, driver, calls);
    IsolationIsExact(batch, driver, calls, bad);
    var fates := Isolate(batch, driver, calls).fates;
    if e in With(batch, driver, calls, Dead) {
      var k := PickedAt(batch, fates, Dead, e);
    }
    if e in batch && e.row.Some? && bad(e.row.value) {
      var k :| 0 <= k < |batch| && batch[k] == e;
      PickHolds(batch, fates, Dead, k);
    }
  }

  lemma {:induction false} PickHolds(batch: seq<Buffered>, fates: seq<Fate>, fate: Fate, k: nat)
    requires |fates| == |batch| && k < |batch| && fates[k] == fate
    ensures batch[k] in Pick(batch, fates, fate)
  {
    if k > 0 { PickHolds(batch[1..], fates[1..], fate, k - 1); }
  }

  lemma {:induction false} PickedAt(batch: seq<Buffered>, fates: seq<Fate>, fate: Fate, e: Buffered) returns (k: nat)
    requires |fates| == |batch| && e in Pick(batch, fates, fate)
    ensures k < |batch| && batch[k] == e && fates[k] == fate
  {
    if fates[0] == fate && batch[0] == e { return 0; }
    k := PickedAt(batch[1..], fates[1..], fate, e);
    k := k + 1;
  }

  // ----- a failed acknowledgement stays queued

  lemma {:induction false} EnqueueKeepsQueued(queue: seq<nat>, ids: seq<nat>)
    requires queue != []
    ensures Delivery.EnqueueAll(queue, ids) != []
    decreases |ids|
  {
    if ids != [] { EnqueueKeepsQueued(Delivery.Enqueue(queue, ids[0]), ids[1..]); }
  }

  lemma {:induction false} RejectKeepsQueued(m: Memory, env: Environment, events: seq<Buffered>)
    requires m.durable != []
    ensures RejectAll(m, env, events).durable != []
    decreases |events|
  {
    if events != [] { RejectKeepsQueued(Reject(m, env, events[0]), env, events[1..]); }
  }

  lemma StillToAcknowledge(m: Memory, env: Environment, arrivals: seq<Buffered>)
    requires m.durable != []
    ensures AfterFlushInsert(m, env, arrivals).durable != []
  {
    RejectKeepsQueued(m, env, With(m.buffer, env.driver, m.calls, Dead));
    EnqueueKeepsQueued(AfterInsert(m, env, m.buffer).durable, IdsOf(With(m.buffer, env.driver, m.calls, Durable)));
  }

  // ----- what is queued for acknowledgement

  ghost predicate Owes(m: Memory, id: nat) {
    id in m.durable || id in m.acked
  }

  /** The identifier belongs to an event newly stored, or newly rejected with its rejection fully recorded on
      the occasion it was rejected. */
  ghost predicate NewlyOwed(m: Memory, m': Memory, env: Environment, id: nat)
    requires |m'.rejectedAt| == |m'.rejected|
  {
    || (exists i :: |m.stored| <= i < |m'.stored| && m'.stored[i].id == id)
    || (exists i :: |m.rejected| <= i < |m'.rejected| && m'.rejected[i].id == id
                    && At(env.rejectRecorded, m'.rejectedAt[i]))
  }

  ghost predicate OccasionsOk(m: Memory) {
    && |m.rejectedAt| == |m.rejected|
    && (forall i :: 0 <= i < |m.rejectedAt| ==> m.rejectedAt[i] < m.asked)
    && (forall i, j :: 0 <= i < j < |m.rejectedAt| ==> m.rejectedAt[i] < m.rejectedAt[j])
  }

  /** Histories only grow, every rejection has an occasion of its own, and an identifier is queued or finalized
      afterwards if and only if it was before or is newly owed. */
  ghost predicate Accounts(m: Memory, m': Memory, env: Environment) {
    && OccasionsOk(m') && m.asked <= m'.asked
    && m.stored <= m'.stored && m.rejected <= m'.rejected && m.rejectedAt <= m'.rejectedAt && m.acked <= m'.acked
    && (forall i :: |m.rejectedAt| <= i < |m'.rejectedAt| ==> m.asked <= m'.rejectedAt[i])
    && (forall id :: Owes(m', id) <==> Owes(m, id) || NewlyOwed(m, m', env, id))
  }

  lemma NewlyOwedSplits(a: Memory, b: Memory, c: Memory, env: Environment, id: nat)
    requires |b.rejectedAt| == |b.rejected| && |c.rejectedAt| == |c.rejected|
    requires a.stored <= b.stored <= c.stored && a.rejected <= b.rejected <= c.rejected && b.rejectedAt <= c.rejectedAt
    ensures NewlyOwed(a, c, env, id) <==> NewlyOwed(a, b, env, id) || NewlyOwed(b, c, env, id)
  {
    if NewlyOwed(a, b, env, id) {
      if i :| |a.stored| <= i < |b.stored| && b.stored[i].id == id {
        assert c.stored[i].id == id;
      } else {
        var i :| |a.rejected| <= i < |b.rejected| && b.rejected[i].id == id && At(env.rejectRecorded, b.rejectedAt[i]);
        assert c.rejected[i].id == id && c.rejectedAt[i] == b.rejectedAt[i];
      }
    }
    if NewlyOwed(a, c, env, id) && !NewlyOwed(b, c, env, id) {
      if i :| |a.stored| <= i < |c.stored| && c.stored[i].id == id {
        assert b.stored[i].id == id;
      } else {
        var i :| |a.rejected| <= i < |c.rejected| && c.rejected[i].id == id && At(env.rejectRecorded, c.rejectedAt[i]);
        assert b.rejected[i].id == id && b.rejectedAt[i] == c.rejectedAt[i];
      }
    }
  }

  lemma AccountsChain(a: Memory, b: Memory, c: Memory, env: Environment)
    requires OccasionsOk(a) && Accounts(a, b, env) && Accounts(b, c, env)
    ensures Accounts(a, c, env)
  {
    forall id ensures Owes(c, id) <==> Owes(a, id) || NewlyOwed(a, c, env, id) {
      NewlyOwedSplits(a, b, c, env, id);
    }
  }

  /** Steps that touch neither histories nor the queue. */
  lemma QuietAccounts(m: Memory, m': Memory, env: Environment)
    requires OccasionsOk(m) && m.asked <= m'.asked
    requires m' == m.(buffer := m'.buffer, calls := m'.calls, asked := m'.asked)
    ensures Accounts(m, m', env)
  {
  }

  lemma AckAccounts(m: Memory, env: Environment)
    requires OccasionsOk(m)
    ensures Accounts(m, AfterAck(m, env), env)
  {
  }

  lemma RejectAccounts(m: Memory, env: Environment, e: Buffered)
    requires OccasionsOk(m)
    ensures Accounts(m, Reject(m, env, e), env)
  {
    var m', n := Reject(m, env, e), |m.rejected|;
    assert m'.rejected[n] == e && m'.rejectedAt[n] == m.asked;
    forall id ensures Owes(m', id) <==> Owes(m, id) || NewlyOwed(m, m', env, id) {
      if e.id == id && At(env.rejectRecorded, m.asked) { assert m'.rejected[n].id == id; }
    }
  }

  lemma {:induction false} RejectAllAccounts(m: Memory, env: Environment, events: seq<Buffered>)
    requires OccasionsOk(m)
    ensures Accounts(m, RejectAll(m, env, events), env)
    decreases |events|
  {
    if events == [] {
      QuietAccounts(m, m, env);
    } else {
      var first := Reject(m, env, events[0]);
      RejectAccounts(m, env, events[0]);
      RejectAllAccounts(first, env, events[1..]);
      AccountsChain(m, first, RejectAll(first, env, events[1..]), env);
    }
  }

  lemma {:induction false} IdsOfMembers(events: seq<Buffered>)
    ensures forall id :: id in IdsOf(events) <==> exists i :: 0 <= i < |events| && events[i].id == id
  {
    if events != [] {
      IdsOfMembers(events[1..]);
      forall id ensures id in IdsOf(events) <==> exists i :: 0 <= i < |events| && events[i].id == id {
        if id in IdsOf(events[1..]) {
          var i :| 0 <= i < |events[1..]| && events[1..][i].id == id;
          assert events[i + 1].id == id;
        }
        if i :| 0 <= i < |events| && events[i].id == id {
          if i > 0 { assert events[1..][i - 1].id == id; }
        }
        assert events[0].id == IdsOf(events)[0];
      }
    }
  }

  /** Storing events and queueing exactly their identifiers. */
  lemma StoreAccounts(m: Memory, m': Memory, env: Environment, kept: seq<Buffered>)
    requires OccasionsOk(m)
    requires m' == m.(buffer := m'.buffer, stored := m.stored + kept, durable := m'.durable)
    requires forall id :: id in m'.durable <==> id in m.durable || id in IdsOf(kept)
    ensures Accounts(m, m', env)
  {
    IdsOfMembers(kept);
    forall id ensures Owes(m', id) <==> Owes(m, id) || NewlyOwed(m, m', env, id) {
      if id in IdsOf(kept) {
        var i :| 0 <= i < |kept| && kept[i].id == id;
        assert m'.stored[|m.stored| + i].id == id;
      }
      if i :| |m.stored| <= i < |m'.stored| && m'.stored[i].id == id {
        assert kept[i - |m.stored|].id == id;
      }
    }
  }

  lemma FlushInsertAccounts(m: Memory, env: Environment, arrivals: seq<Buffered>)
    requires OccasionsOk(m)
    ensures Accounts(m, AfterFlushInsert(m, env, arrivals), env) && AfterFlushInsert(m, env, arrivals).acked == m.acked
  {
    var kept, dead := With(m.buffer, env.driver, m.calls, Durable), With(m.buffer, env.driver, m.calls, Dead);
    var rejected, next := RejectAll(m, env, dead), AfterInsert(m, env, m.buffer);
    RejectAllAccounts(m, env, dead);
    RejectAllHistory(m, env, dead);
    QuietAccounts(rejected, next, env);
    AccountsChain(m, rejected, next, env);
    Safety.EnqueueAllMembers(next.durable, IdsOf(kept));
    StoreAccounts(next, AfterFlushInsert(m, env, arrivals), env, kept);
    AccountsChain(m, next, AfterFlushInsert(m, env, arrivals), env);
  }

  lemma {:induction false} RejectAllIgnoresAcked(m: Memory, env: Environment, events: seq<Buffered>, acked: seq<nat>)
    ensures RejectAll(m.(acked := acked), env, events) == RejectAll(m, env, events).(acked := acked)
    decreases |events|
  {
    if events != [] { RejectAllIgnoresAcked(Reject(m, env, events[0]), env, events[1..], acked); }
  }

  /** What one insert queues: an identifier is queued afterwards if and only if it was before, or its event was
      newly stored, or newly rejected and recorded; nothing is queued for what must be retried. */
  lemma FlushInsertQueuesExactly(m: Memory, env: Environment, arrivals: seq<Buffered>, id: nat)
    requires OccasionsOk(m)
    ensures var m' := AfterFlushInsert(m, env, arrivals);
            && OccasionsOk(m') && (id in m'.durable <==> id in m.durable || NewlyOwed(m, m', env, id))
  {
    var bare := m.(acked := []);
    var m', bare' := AfterFlushInsert(m, env, arrivals), AfterFlushInsert(bare, env, arrivals);
    RejectAllIgnoresAcked(m, env, With(m.buffer, env.driver, m.calls, Dead), []);
    FlushInsertAccounts(m, env, arrivals);
    FlushInsertAccounts(bare, env, arrivals);
    assert bare' == m'.(acked := []);
    assert Owes(bare', id) <==> Owes(bare, id) || NewlyOwed(bare, bare', env, id);
    assert NewlyOwed(bare, bare', env, id) <==> NewlyOwed(m, m', env, id);
  }

  lemma FlushAccounts(m: Memory, env: Environment, arrivals: seq<Buffered>)
    requires OccasionsOk(m)
    ensures Accounts(m, AfterFlush(m, env, arrivals), env)
  {
    var acked := AfterAck(m, env);
    AckAccounts(m, env);
    if m.buffer == [] {
      QuietAccounts(acked, acked.(buffer := arrivals), env);
      AccountsChain(m, acked, acked.(buffer := arrivals), env);
    } else {
      var inserted := AfterFlushInsert(acked, env, arrivals);
      FlushInsertAccounts(acked, env, arrivals);
      AccountsChain(m, acked, inserted, env);
      AckAccounts(inserted, env);
      AccountsChain(m, inserted, AfterAck(inserted, env), env);
    }
  }

  lemma RoomAccounts(m: Memory, env: Environment)
    requires OccasionsOk(m)
    ensures Accounts(m, Room(m, env).memory, env)
  {
    var m1 := m.(asked := m.asked + 1);
    QuietAccounts(m, m1, env);
    FlushAccounts(m1, env, []);
    AccountsChain(m, m1, AfterFlush(m1, env, []), env);
  }

  lemma TakeAccounts(m: Memory, env: Environment, size: nat, message: Incoming)
    requires OccasionsOk(m)
    ensures Accounts(m, Take(m, env, size, message).memory, env)
  {
    if !message.wellFormed {
      RejectAccounts(m, env, message.event);
    } else {
      var room := if Full(m, size) then Room(m, env) else Step(true, m);
      if Full(m, size) { RoomAccounts(m, env); } else { QuietAccounts(m, m, env); }
      var pushed := room.memory.(buffer := room.memory.buffer + [message.event]);
      QuietAccounts(room.memory, pushed, env);
      AccountsChain(m, room.memory, pushed, env);
    }
  }

  lemma {:induction false} TakeAllAccounts(m: Memory, env: Environment, size: nat, incoming: seq<Incoming>)
    requires OccasionsOk(m)
    ensures Accounts(m, TakeAll(m, env, size, incoming).memory, env)
    decreases |incoming|
  {
    if incoming == [] {
      QuietAccounts(m, m, env);
    } else {
      var first := Take(m, env, size, incoming[0]);
      TakeAccounts(m, env, size, incoming[0]);
      if first.ok {
        TakeAllAccounts(first.memory, env, size, incoming[1..]);
        AccountsChain(m, first.memory, TakeAll(first.memory, env, size, incoming[1..]).memory, env);
      }
    }
  }

  /** Over a whole intake with all its flushes: an identifier is queued for acknowledgement or finalized
      afterwards if and only if it was before, or its event was stored meanwhile, or rejected meanwhile with
      the rejection recorded on its own occasion. */
  lemma IntakeQueuesExactly(m: Memory, env: Environment, size: nat, incoming: seq<Incoming>)
    requires OccasionsOk(m)
    ensures Accounts(m, Process(m, env, size, incoming).memory, env)
  {
    TakeAllAccounts(m, env, size, incoming);
    var p := TakeAll(m, env, size, incoming).memory;
    RoomAccounts(p, env);
    AccountsChain(m, p, Room(p, env).memory, env);
  }

  // ----- when an identifier leaves the queue

  lemma FlushInsertKeepsQueued(m: Memory, env: Environment, arrivals: seq<Buffered>, id: nat)
    requires id in m.durable
    ensures id in AfterFlushInsert(m, env, arrivals).durable
  {
    RejectKeepsId(m, env, With(m.buffer, env.driver, m.calls, Dead), id);
    Safety.EnqueueAllMembers(AfterInsert(m, env, m.buffer).durable,
                             IdsOf(With(m.buffer, env.driver, m.calls, Durable)));
  }

  lemma {:induction false} RejectKeepsId(m: Memory, env: Environment, events: seq<Buffered>, id: nat)
    requires id in m.durable
    ensures id in RejectAll(m, env, events).durable
    decreases |events|
  {
    if events != [] { RejectKeepsId(Reject(m, env, events[0]), env, events[1..], id); }
  }

  lemma LeavesByFirstAck(m: Memory, env: Environment, arrivals: seq<Buffered>, id: nat)
    requires id in m.durable && id !in AfterFlush(m, env, arrivals).durable
    ensures At(env.acksSucceed, m.asked)
  {
    if !At(env.acksSucceed, m.asked) { FlushInsertKeepsQueued(AfterAck(m, env), env, arrivals, id); }
  }

  lemma FirstAckStays(m: Memory, env: Environment, arrivals: seq<Buffered>)
    requires OccasionsOk(m) && m.durable != [] && At(env.acksSucceed, m.asked)
    ensures var m' := AfterFlush(m, env, arrivals); m.asked < m'.asked && m.acked + m.durable <= m'.acked
  {
    var acked := AfterAck(m, env);
    if m.buffer != [] {
      var inserted := AfterFlushInsert(acked, env, arrivals);
      AckAccounts(m, env);
      FlushInsertAccounts(acked, env, arrivals);
      AckAccounts(inserted, env);
    }
  }

  /** An identifier leaves the queue only when an acknowledgement succeeds, on an occasion of this flush, and
      is then finalized. */
  lemma LeavesOnlyByAcknowledgement(m: Memory, env: Environment, arrivals: seq<Buffered>, id: nat)
    requires OccasionsOk(m) && id in m.durable && id !in AfterFlush(m, env, arrivals).durable
    ensures var m' := AfterFlush(m, env, arrivals);
            && m.acked <= m'.acked && id in m'.acked[|m.acked|..]
            && exists n :: m.asked <= n < m'.asked && At(env.acksSucceed, n)
  {
    var m' := AfterFlush(m, env, arrivals);
    LeavesByFirstAck(m, env, arrivals, id);
    FirstAckStays(m, env, arrivals);
    var i :| 0 <= i < |m.durable| && m.durable[i] == id;
    assert m'.acked[|m.acked|..][i] == (m.acked + m.durable)[|m.acked| + i];
  }

  /** When acknowledgements succeed, a flush leaves nothing to acknowledge: everything it was owed or stored is
      finalized. */
  lemma HealthyFlushFinalizesAll(m: Memory, env: Environment, arrivals: seq<Buffered>)
    requires forall n: nat :: At(env.acksSucceed, n)
    ensures AfterFlush(m, env, arrivals).durable == []
  {
    assert AfterAck(m, env).durable == [];
    if m.buffer != [] {
      var inserted := AfterFlushInsert(AfterAck(m, env), env, arrivals);
      assert AfterAck(inserted, env).durable == [];
    }
  }

  /** Flushes are always due, acknowledgements succeed, and the driver never fails transiently. */
  ghost predicate Healthy(env: Environment) {
    && (forall n: nat :: At(env.retryDue, n)) && (forall n: nat :: At(env.acksSucceed, n))
    && (forall n: nat, batch: seq<Buffered> :: !Ask(env.driver, n, batch).Unavailable?)
  }

  lemma HealthyRoom(m: Memory, env: Environment)
    requires Healthy(env)
    ensures var room := Room(m, env); room.ok && room.memory.buffer == [] && room.memory.durable == []
  {
    var m1 := m.(asked := m.asked + 1);
    HealthyFlushFinalizesAll(m1, env, []);
    if m1.buffer != [] {
      var retry := With(m1.buffer, env.driver, m1.calls, Retry);
      FlushHistories(m1, env, []);
      RetryOnlyAfterTransient(m1.buffer, env.driver, m1.calls);
      OneFateEach(m1.buffer, env.driver, m1.calls);
      if retry != [] {
        var k := PickedAt(m1.buffer, Isolate(m1.buffer, env.driver, m1.calls).fates, Retry, retry[0]);
        assert false;
      }
    }
  }

  lemma {:induction false} HealthyTakeAll(m: Memory, env: Environment, size: nat, incoming: seq<Incoming>)
    requires Healthy(env) && size > 0 && |m.buffer| <= size
    ensures var p := TakeAll(m, env, size, incoming); p.taken == |incoming| && |p.memory.buffer| <= size
    decreases |incoming|
  {
    if incoming != [] {
      HealthyRoom(m, env);
      HealthyTakeAll(Take(m, env, size, incoming[0]).memory, env, size, incoming[1..]);
    }
  }

  /** In a healthy environment intake takes everything in, however much it is, and leaves room: a buffer that is
      full in the end is flushed. */
  lemma HealthyIntakeLeavesRoom(m: Memory, env: Environment, size: nat, incoming: seq<Incoming>)
    requires Healthy(env) && size > 0 && |m.buffer| <= size
    ensures var p := Process(m, env, size, incoming); p.taken == |incoming| && |p.memory.buffer| < size
  {
    HealthyTakeAll(m, env, size, incoming);
    HealthyRoom(TakeAll(m, env, size, incoming).memory, env);
  }

  /** After a failed acknowledgement, a flush does not try again: nothing is finalized by it. */
  lemma FailedAckIsNotRepeated(m: Memory, env: Environment, arrivals: seq<Buffered>)
    requires OccasionsOk(m) && m.durable != [] && !At(env.acksSucceed, m.asked)
    ensures AfterFlush(m, env, arrivals).acked == m.acked && !FlushSucceeds(m, env, arrivals)
  {
    var acked := AfterAck(m, env);
    if m.buffer != [] {
      FlushInsertAccounts(acked, env, arrivals);
      StillToAcknowledge(acked, env, arrivals);
    }
  }

  // ----- the fates of a batch, case by case as the recursion meets them

  lemma {:induction false} PickLength(batch: seq<Buffered>, fates: seq<Fate>, fate: Fate)
    requires |fates| == |batch|
    ensures |Pick(batch, fates, fate)| <= |batch|
  {
    if batch != [] { PickLength(batch[1..], fates[1..], fate); }
  }

  lemma ShortRetry(batch: seq<Buffered>, driver: Driver, calls: nat)
    ensures |With(batch, driver, calls, Retry)| <= |batch|
  {
    OneFateEach(batch, driver, calls);
    PickLength(batch, Isolate(batch, driver, calls).fates, Retry);
  }

  /** When one attempt settles the batch, all its events share one fate. */
  lemma SettledFates(batch: seq<Buffered>, driver: Driver, calls: nat)
    ensures var attempt := Ask(driver, calls, batch);
            MarkersOnly(batch) || !attempt.RowRejected? || |batch| == 1 ==>
              var met := if MarkersOnly(batch) || attempt.Inserted? then Durable
                         else if attempt.Unavailable? then Retry else Dead;
              && With(batch, driver, calls, Durable) == (if met == Durable then batch else [])
              && With(batch, driver, calls, Retry) == (if met == Retry then batch else [])
              && With(batch, driver, calls, Dead) == (if met == Dead then batch else [])
  {
    var attempt := Ask(driver, calls, batch);
    if MarkersOnly(batch) || !attempt.RowRejected? || |batch| == 1 {
      var met := if MarkersOnly(batch) || attempt.Inserted? then Durable
                 else if attempt.Unavailable? then Retry else Dead;
      assert Isolate(batch, driver, calls).fates == All(met, |batch|);
      PickUniform(batch, |batch|, met, Durable);
      PickUniform(batch, |batch|, met, Retry);
      PickUniform(batch, |batch|, met, Dead);
    }
  }

  lemma {:induction false} RejectAllSplits(m: Memory, env: Environment, a: seq<Buffered>, b: seq<Buffered>)
    ensures RejectAll(m, env, a + b) == RejectAll(RejectAll(m, env, a), env, b)
    decreases |a|
  {
    if a == [] {
      assert a + b == b;
    } else {
      assert (a + b)[1..] == a[1..] + b;
      RejectAllSplits(Reject(m, env, a[0]), env, a[1..], b);
    }
  }

  lemma {:induction false} RejectAllIgnoresCalls(m: Memory, env: Environment, events: seq<Buffered>, calls: nat)
    ensures RejectAll(m.(calls := calls), env, events) == RejectAll(m, env, events).(calls := calls)
    decreases |events|
  {
    if events != [] {
      RejectAllIgnoresCalls(Reject(m, env, events[0]), env, events[1..], calls);
    }
  }

  /** The memory one settling attempt leaves. */
  lemma SettledMemory(m: Memory, env: Environment, batch: seq<Buffered>)
    ensures MarkersOnly(batch) ==> AfterInsert(m, env, batch) == m
    ensures var attempt := Ask(env.driver, m.calls, batch);
            !MarkersOnly(batch) && (!attempt.RowRejected? || |batch| == 1) ==>
              AfterInsert(m, env, batch) ==
              RejectAll(m.(calls := m.calls + 1), env, if attempt.RowRejected? then batch else [])
  {
    var attempt := Ask(env.driver, m.calls, batch);
    SettledFates(batch, env.driver, m.calls);
    RejectAllIgnoresCalls(m, env, if attempt.RowRejected? then batch else [], m.calls + 1);
  }

  /** When the batch is split, each fate collects the left half's events before the right half's. */
  lemma SplitFates(batch: seq<Buffered>, env: Environment, m: Memory)
    requires !MarkersOnly(batch) && Ask(env.driver, m.calls, batch).RowRejected? && |batch| > 1
    ensures var left, right := batch[..|batch| / 2], batch[|batch| / 2..];
            var m1 := AfterInsert(m.(calls := m.calls + 1), env, left);
            && AfterInsert(m, env, batch) == AfterInsert(m1, env, right)
            && (forall fate :: With(batch, env.driver, m.calls, fate)
                               == With(left, env.driver, m.calls + 1, fate) + With(right, env.driver, m1.calls, fate))
  {
    var mid := |batch| / 2;
    var left := Isolate(batch[..mid], env.driver, m.calls + 1);
    var right := Isolate(batch[mid..], env.driver, left.calls);
    OneFateEach(batch[..mid], env.driver, m.calls + 1);
    OneFateEach(batch[mid..], env.driver, left.calls);
    assert batch == batch[..mid] + batch[mid..];
    forall fate
      ensures With(batch, env.driver, m.calls, fate)
              == With(batch[..mid], env.driver, m.calls + 1, fate) + With(batch[mid..], env.driver, left.calls, fate)
    {
      PickSplits(batch[..mid], batch[mid..], left.fates, right.fates, fate);
    }
    var deadL, deadR := With(batch[..mid], env.driver, m.calls + 1, Dead),
        With(batch[mid..], env.driver, left.calls, Dead);
    RejectAllSplits(m, env, deadL, deadR);
    RejectAllIgnoresCalls(m, env, deadL, m.calls + 1);
    RejectAllIgnoresCalls(RejectAll(m, env, deadL), env, deadR, left.calls);
  }

  lemma HalvedIsIsolated(m: Memory, m': Memory, env: Environment, batch: seq<Buffered>, ok: seq<Buffered>,
                         retry: seq<Buffered>, transient: bool)
    requires !MarkersOnly(batch) && Ask(env.driver, m.calls, batch).RowRejected? && |batch| > 1
    requires Halved(m.(calls := m.calls + 1), m', env, batch, ok, retry, transient)
    ensures Isolated(m, m', env, batch, ok, retry, transient)
  {
    SplitFates(batch, env, m);
  }
}
