/** The SDK's event queue: bounded FIFO intake, count- and byte-bounded batches, requeueing at the
    front, and the drain that sends batch after batch while intake goes on. */
module EventQueue {
  import opened Batches
  import opened Trials

  /** The result of one drain. */
  datatype Report = Report(accepted: nat, rejected: nat, undelivered: seq<Event>)

  // ----- the front batch

  /** How far the front batch reaches, having reached `k`: up to the batch size, the end of the queue, or
      the first event that would outgrow one request. A first event is always taken. */
  function FrontSize(queue: seq<Event>, batchSize: nat, k: nat): (n: nat)
    requires k <= |queue|
    ensures k <= n <= |queue| && (k <= batchSize ==> n <= batchSize)
    decreases |queue| - k
  {
    if k < batchSize && k < |queue| && (k == 0 || RequestBytes(queue[..k + 1]) <= MAX_REQUEST_BYTES)
    then FrontSize(queue, batchSize, k + 1) else k
  }

  lemma SingleFits(e: Event)
    requires Admissible(e)
    ensures RequestBytes([e]) <= MAX_REQUEST_BYTES
  {
    assert Sizes([e]) == Sizes([e][..0]) + e.size;
  }

  /** The front batch fits one request, and is the longest front that does. */
  lemma {:induction false} FrontFits(queue: seq<Event>, batchSize: nat, k: nat)
    requires k <= |queue| && k <= batchSize && forall e <- queue :: Admissible(e)
    requires k > 0 ==> RequestBytes(queue[..k]) <= MAX_REQUEST_BYTES
    ensures var n := FrontSize(queue, batchSize, k);
            && (n > 0 ==> RequestBytes(queue[..n]) <= MAX_REQUEST_BYTES)
            && (k == 0 && queue != [] && batchSize > 0 ==> n > 0)
            && (k < n < |queue| && n < batchSize ==> RequestBytes(queue[..n + 1]) > MAX_REQUEST_BYTES)
    decreases |queue| - k
  {
    if k < batchSize && k < |queue| && (k == 0 || RequestBytes(queue[..k + 1]) <= MAX_REQUEST_BYTES) {
      if k == 0 {
        SingleFits(queue[0]);
        assert queue[..1] == [queue[0]];
      }
      FrontFits(queue, batchSize, k + 1);
    }
  }

  /** The front batch and the rest, as a caller sees them. */
  lemma FrontIsLongest(all: seq<Event>, batchSize: nat, batch: seq<Event>, rest: seq<Event>)
    requires batchSize > 0 && forall e <- all :: Admissible(e)
    requires var n := FrontSize(all, batchSize, 0); batch == all[..n] && rest == all[n..]
    ensures batch + rest == all && |batch| <= batchSize && (batch == [] <==> all == [])
    ensures batch != [] ==> RequestBytes(batch) <= MAX_REQUEST_BYTES && |batch| == FrontSize(all, batchSize, 1)
    ensures rest != [] && |batch| < batchSize ==> RequestBytes(batch + [rest[0]]) > MAX_REQUEST_BYTES
    ensures forall e <- rest :: Admissible(e)
  {
    FrontFits(all, batchSize, 0);
    if rest != [] { assert batch + [rest[0]] == all[..|batch| + 1]; }
  }

  // ----- a whole drain, as a function

  /** The queue, the payloads sent, the fates of the events settled, and the batches taken, so far. */
  datatype Ledger = Ledger(queue: seq<Event>, sent: seq<seq<Event>>, fates: seq<Fate>, batches: nat)

  function First(arrivals: seq<seq<Event>>): seq<Event> {
    if arrivals == [] then [] else arrivals[0]
  }

  function Later(arrivals: seq<seq<Event>>): seq<seq<Event>> {
    if arrivals == [] then [] else arrivals[1..]
  }

  predicate AllAdmissible(arrivals: seq<seq<Event>>) {
    forall i :: 0 <= i < |arrivals| ==> forall e <- arrivals[i] :: Admissible(e)
  }

  /** What arrives while the first `batches` batches are in flight. */
  function Arrived(arrivals: seq<seq<Event>>, batches: nat): seq<Event> {
    if batches == 0 then [] else First(arrivals) + Arrived(Later(arrivals), batches - 1)
  }

  function FrontDelivery(l: Ledger, batchSize: nat, service: Service): Delivery
    requires l.queue != []
  {
    Deliver(l.queue[..FrontSize(l.queue, batchSize, 1)], service, |l.sent|)
  }

  /** What stands behind the front batch once `more` has arrived. */
  function Behind(queue: seq<Event>, batchSize: nat, more: seq<Event>): (r: seq<Event>)
    requires queue != []
    ensures |r| < |queue| + |more|
  {
    queue[FrontSize(queue, batchSize, 1)..] + more
  }

  /** One batch taken and delivered while `more` arrives; what must be retried returns to the front. */
  function Round(l: Ledger, batchSize: nat, service: Service, more: seq<Event>): (r: Ledger)
    requires l.queue != []
    ensures FrontDelivery(l, batchSize, service).retryable == [] ==> |r.queue| < |l.queue| + |more|
  {
    var d := FrontDelivery(l, batchSize, service);
    var behind := Behind(l.queue, batchSize, more);
    Ledger(if d.retryable == [] then behind else d.retryable + behind, l.sent + d.sends, l.fates + d.fates,
           l.batches + 1)
  }

  /** Rounds until the queue is empty or a batch must be retried; `arrivals` lists what other threads
      append while each batch is in flight. */
  function Drain(l: Ledger, batchSize: nat, service: Service, arrivals: seq<seq<Event>>): Ledger
    requires batchSize > 0
    decreases |arrivals|, |l.queue|
  {
    if l.queue == [] then l
    else
      var next := Round(l, batchSize, service, First(arrivals));
      if FrontDelivery(l, batchSize, service).retryable != [] then next
      else Drain(next, batchSize, service, Later(arrivals))
  }

  /** Settling `f` of the first `k` events. */
  lemma FrontPartlySettled(queue: seq<Event>, more: seq<Event>, k: nat, f: nat)
    requires f <= k <= |queue|
    ensures (queue + more)[f..] == queue[..k][f..] + (queue[k..] + more)
  {
  }

  /** Settling the first `k` events and `f` of those behind them. */
  lemma FrontSettled(queue: seq<Event>, more: seq<Event>, tail: seq<Event>, k: nat, f: nat)
    requires k <= |queue| && f <= |queue[k..] + more + tail|
    ensures queue + (more + tail) == queue[..k] + (queue[k..] + more + tail)
    ensures (queue + (more + tail))[k + f..] == (queue[k..] + more + tail)[f..]
  {
    assert queue + (more + tail) == queue[..k] + (queue[k..] + more + tail);
  }

  /** What is left is the old queue and what arrived meanwhile, less the events settled meanwhile. */
  ghost predicate LeavesSuffix(l: Ledger, r: Ledger, arrivals: seq<seq<Event>>) {
    && l.batches <= r.batches && l.fates <= r.fates
    && var all := l.queue + Arrived(arrivals, r.batches - l.batches);
       var settled := |r.fates| - |l.fates|;
       settled <= |all| && r.queue == all[settled..]
  }

  lemma OneArrival(arrivals: seq<seq<Event>>)
    ensures Arrived(arrivals, 1) == First(arrivals)
  {
    assert Arrived(Later(arrivals), 0) == [];
  }

  /** A round removes exactly the events it settles, from the front. */
  lemma RoundQueue(l: Ledger, batchSize: nat, service: Service, more: seq<Event>)
    requires l.queue != []
    ensures var f := |FrontDelivery(l, batchSize, service).fates|;
            f <= |l.queue| && Round(l, batchSize, service, more).queue == (l.queue + more)[f..]
  {
    var k := FrontSize(l.queue, batchSize, 1);
    var d := FrontDelivery(l, batchSize, service);
    RetryableIsSuffix(l.queue[..k], service, |l.sent|);
    FrontPartlySettled(l.queue, more, k, |d.fates|);
    if d.retryable == [] { assert l.queue[..k][|d.fates|..] == []; }
  }

  lemma RoundAdmissible(l: Ledger, batchSize: nat, service: Service, more: seq<Event>)
    requires l.queue != [] && (forall e <- l.queue :: Admissible(e)) && (forall e <- more :: Admissible(e))
    ensures forall e <- Round(l, batchSize, service, more).queue :: Admissible(e)
  {
    RoundQueue(l, batchSize, service, more);
  }

  lemma RoundLeavesSuffix(l: Ledger, batchSize: nat, service: Service, arrivals: seq<seq<Event>>)
    requires l.queue != []
    ensures LeavesSuffix(l, Round(l, batchSize, service, First(arrivals)), arrivals)
  {
    OneArrival(arrivals);
    RoundQueue(l, batchSize, service, First(arrivals));
  }

  /** What a round leaves when it settles its whole batch. */
  lemma WholeRound(l: Ledger, batchSize: nat, service: Service, more: seq<Event>)
    requires l.queue != [] && FrontDelivery(l, batchSize, service).retryable == []
    ensures var k, next := FrontSize(l.queue, batchSize, 1), Round(l, batchSize, service, more);
            next.queue == l.queue[k..] + more && |next.fates| == |l.fates| + k && next.batches == l.batches + 1
            && l.fates <= next.fates
  {
    RetryableIsSuffix(l.queue[..FrontSize(l.queue, batchSize, 1)], service, |l.sent|);
  }

  /** A round that settles the first `k` events, and what follows it. */
  lemma SuffixOfRound(l: Ledger, next: Ledger, r: Ledger, k: nat, arrivals: seq<seq<Event>>)
    requires k <= |l.queue| && next.queue == l.queue[k..] + First(arrivals)
    requires l.fates <= next.fates && |next.fates| == |l.fates| + k && next.batches == l.batches + 1
    requires LeavesSuffix(next, r, Later(arrivals))
    ensures LeavesSuffix(l, r, arrivals)
  {
    var tail := Arrived(Later(arrivals), r.batches - next.batches);
    assert Arrived(arrivals, r.batches - l.batches) == First(arrivals) + tail;
    FrontSettled(l.queue, First(arrivals), tail, k, |r.fates| - |next.fates|);
  }

  /** Nothing is dropped, duplicated or reordered by a drain. */
  lemma {:induction false} DrainLeavesSuffix(l: Ledger, batchSize: nat, service: Service, arrivals: seq<seq<Event>>)
    requires batchSize > 0
    ensures LeavesSuffix(l, Drain(l, batchSize, service, arrivals), arrivals)
    decreases |arrivals|, |l.queue|
  {
    if l.queue != [] {
      RoundLeavesSuffix(l, batchSize, service, arrivals);
      if FrontDelivery(l, batchSize, service).retryable == [] {
        var next := Round(l, batchSize, service, First(arrivals));
        DrainLeavesSuffix(next, batchSize, service, Later(arrivals));
        WholeRound(l, batchSize, service, First(arrivals));
        var r := Drain(next, batchSize, service, Later(arrivals));
        SuffixOfRound(l, next, r, FrontSize(l.queue, batchSize, 1), arrivals);
      }
    }
  }

  /** Judging the front, then what stands behind it, is judging all. */
  lemma JudgedInOrder(done: seq<Fate>, queue: seq<Event>, more: seq<Event>, tail: seq<Event>, k: nat,
                      valid: Event -> bool)
    requires k <= |queue|
    ensures (done + Judged(queue[..k], valid)) + Judged(queue[k..] + more + tail, valid) ==
            done + Judged(queue + (more + tail), valid)
  {
    FrontSettled(queue, more, tail, k, 0);
    assert Judged(queue[..k] + (queue[k..] + more + tail), valid)
        == Judged(queue[..k], valid) + Judged(queue[k..] + more + tail, valid);
  }

  ghost predicate SettlesAll(l: Ledger, r: Ledger, arrivals: seq<seq<Event>>, valid: Event -> bool) {
    && l.batches <= r.batches && r.queue == []
    && r.fates == l.fates + Judged(l.queue + Arrived(arrivals, r.batches - l.batches), valid)
  }

  lemma RoundIsExact(l: Ledger, batchSize: nat, service: Service, more: seq<Event>, valid: Event -> bool)
    requires l.queue != [] && RejectsExactly(service, valid)
    ensures FrontDelivery(l, batchSize, service).retryable == []
    ensures var k, r := FrontSize(l.queue, batchSize, 1), Round(l, batchSize, service, more);
            r.queue == l.queue[k..] + more && r.fates == l.fates + Judged(l.queue[..k], valid)
                && r.batches == l.batches + 1
  {
    BisectionIsExact(l.queue[..FrontSize(l.queue, batchSize, 1)], service, |l.sent|, valid);
  }

  lemma SettlesAllAfterRound(l: Ledger, next: Ledger, r: Ledger, k: nat, arrivals: seq<seq<Event>>,
                             valid: Event -> bool)
    requires k <= |l.queue| && next.queue == l.queue[k..] + First(arrivals)
    requires next.fates == l.fates + Judged(l.queue[..k], valid) && next.batches == l.batches + 1
    requires SettlesAll(next, r, Later(arrivals), valid)
    ensures SettlesAll(l, r, arrivals, valid)
  {
    var tail := Arrived(Later(arrivals), r.batches - next.batches);
    JudgedInOrder(l.fates, l.queue, First(arrivals), tail, k, valid);
    assert Arrived(arrivals, r.batches - l.batches) == First(arrivals) + tail;
  }

  /** Against a server that rejects exactly the payloads holding an invalid event, a drain settles every
      event, those that arrive while it runs included: the valid ones accepted, the invalid ones rejected. */
  lemma {:induction false} DrainIsExact(l: Ledger, batchSize: nat, service: Service, arrivals: seq<seq<Event>>,
                                        valid: Event -> bool)
    requires batchSize > 0 && RejectsExactly(service, valid)
    ensures SettlesAll(l, Drain(l, batchSize, service, arrivals), arrivals, valid)
    decreases |arrivals|, |l.queue|
  {
    if l.queue == [] {
      assert l.fates + Judged([] + Arrived(arrivals, 0), valid) == l.fates;
    } else {
      var next := Round(l, batchSize, service, First(arrivals));
      RoundIsExact(l, batchSize, service, First(arrivals), valid);
      DrainIsExact(next, batchSize, service, Later(arrivals), valid);
      SettlesAllAfterRound(l, next, Drain(next, batchSize, service, Later(arrivals)), FrontSize(l.queue, batchSize, 1),
                           arrivals, valid);
    }
  }

  /** Some send was answered retryable, or shutdown was seen after one. */
  ghost predicate StoppedForCause(from: nat, sent: seq<seq<Event>>, service: Service) {
    || (exists i :: from <= i < |sent| && Reply(service, i, sent[i]) == Retryable)
    || (exists i :: from < i <= |sent| && Stopping(service, i))
  }

  lemma CauseAmongSends(before: seq<seq<Event>>, batch: seq<Event>, service: Service, d: Delivery,
                        trials: seq<Trial<Outcome>>)
    requires Accountable(batch, service, |before|, d, trials) && d.retryable != []
    ensures StoppedForCause(|before|, before + d.sends, service)
  {
    if Met(trials, |d.fates|, Retryable) {
      var t :| t in trials && t.low <= |d.fates| < t.high && t.answer == Retryable;
      var j :| 0 <= j < |trials| && trials[j] == t;
      assert (before + d.sends)[|before| + j] == d.sends[j];
    }
  }

  lemma RoundStopsForCause(l: Ledger, batchSize: nat, service: Service, more: seq<Event>)
    requires l.queue != [] && FrontDelivery(l, batchSize, service).retryable != []
    ensures StoppedForCause(|l.sent|, Round(l, batchSize, service, more).sent, service)
  {
    var batch, d := l.queue[..FrontSize(l.queue, batchSize, 1)], FrontDelivery(l, batchSize, service);
    var trials := FatesAreAnswers(batch, service, |l.sent|);
    CauseAmongSends(l.sent, batch, service, d, trials);
  }

  /** A drain leaves events queued only for cause: one of its sends was answered retryable, or shutdown was
      seen. */
  lemma {:induction false} DrainStopsOnlyForCause(l: Ledger, batchSize: nat, service: Service,
                                                  arrivals: seq<seq<Event>>)
    requires batchSize > 0
    ensures var r := Drain(l, batchSize, service, arrivals);
            |l.sent| <= |r.sent| && (r.queue == [] || StoppedForCause(|l.sent|, r.sent, service))
    decreases |arrivals|, |l.queue|
  {
    if l.queue != [] {
      if FrontDelivery(l, batchSize, service).retryable != [] {
        RoundStopsForCause(l, batchSize, service, First(arrivals));
      } else {
        DrainStopsOnlyForCause(Round(l, batchSize, service, First(arrivals)), batchSize, service, Later(arrivals));
      }
    }
  }

  // ----- the queue itself

  class Queue {
    const batchSize: nat
    const maxQueueSize: nat
    var queue: seq<Event>
    var accepting: bool
    /** Every payload sent so far. */
    var sent: seq<seq<Event>>
    /** The fates of all events settled so far, and the number of batches taken. */
    ghost var fates: seq<Fate>
    ghost var batches: nat

    ghost function Now(): Ledger
      reads this
    {
      Ledger(queue, sent, fates, batches)
    }

    ghost predicate Valid()
      reads this
    {
      batchSize > 0 && forall e <- queue :: Admissible(e)
    }

    constructor (batchSize: nat, maxQueueSize: nat)
      requires batchSize > 0
      ensures Valid() && this.batchSize == batchSize && this.maxQueueSize == maxQueueSize
      ensures accepting && Now() == Ledger([], [], [], 0)
    {
      this.batchSize, this.maxQueueSize := batchSize, maxQueueSize;
      queue, accepting, sent, fates, batches := [], true, [], [], 0;
    }

    /** Appends a canonical event unless intake is fenced or the queue is full. */
    method Enqueue(e: Event) returns (ok: bool)
      requires Valid()
      modifies this`queue
      ensures Valid()
      ensures ok <==> old(accepting) && |old(queue)| < maxQueueSize && Admissible(e)
      ensures queue == if ok then old(queue) + [e] else old(queue)
    {
      ok := accepting && |queue| < maxQueueSize && Admissible(e);
      if ok { queue := queue + [e]; }
    }

    /** Takes the longest front of the queue that respects both bounds: never empty while the queue is
        not, never over the request size, and stopping only at a bound. */
    method TakeBatch() returns (batch: seq<Event>)
      requires Valid()
      modifies this`queue
      ensures Valid()
      ensures batch + queue == old(queue)
      ensures |batch| <= batchSize && (batch == [] <==> old(queue) == [])
      ensures batch != [] ==> RequestBytes(batch) <= MAX_REQUEST_BYTES
      ensures queue != [] && |batch| < batchSize ==> RequestBytes(batch + [queue[0]]) > MAX_REQUEST_BYTES
      ensures batch != [] ==> |batch| == FrontSize(old(queue), batchSize, 1)
    {
      ghost var all := queue;
      batch := TakeLoop();
      FrontIsLongest(all, batchSize, batch, queue);
    }

    /** The loop that moves events from the front of the queue into the batch. */
    method TakeLoop() returns (batch: seq<Event>)
      modifies this`queue
      ensures var n := FrontSize(old(queue), batchSize, 0); batch == old(queue)[..n] && queue == old(queue)[n..]
    {
      batch := [];
      while |batch| < batchSize && queue != []
        invariant |batch| <= |old(queue)| && batch == old(queue)[..|batch|] && queue == old(queue)[|batch|..]
        invariant FrontSize(old(queue), batchSize, |batch|) == FrontSize(old(queue), batchSize, 0)
        decreases |queue|
      {
        var candidate := batch + [queue[0]];
        assert candidate == old(queue)[..|batch| + 1];
        if batch != [] && RequestBytes(candidate) > MAX_REQUEST_BYTES {
          return;
        }
        batch, queue := candidate, queue[1..];
      }
    }

    /** Pushes the events back one at a time, the last one first, so that the front is the batch in its
        own order. */
    method RequeueFront(batch: seq<Event>)
      modifies this`queue
      ensures queue == batch + old(queue)
    {
      var k := |batch|;
      while k > 0
        invariant 0 <= k <= |batch|
        invariant queue == batch[k..] + old(queue)
      {
        k := k - 1;
        queue := [batch[k]] + queue;
        assert batch[k..] == [batch[k]] + batch[k + 1..];
      }
    }

    /** Sends a batch, bisecting payload rejections. The counts are those of the settled prefix. */
    method DeliverBatch(batch: seq<Event>, service: Service)
      returns (accepted: nat, rejected: nat, retryable: seq<Event>)
      modifies this`sent
      ensures Delivered(Deliver(batch, service, |old(sent)|), old(sent), sent, accepted, rejected, retryable)
      decreases |batch|, 1
    {
      UniformCounts(|batch|);
      var outcome := Reply(service, |sent|, batch);
      sent := sent + [batch];
      if outcome.Accepted? {
        return |batch|, 0, [];
      } else if outcome.Retryable? {
        return 0, 0, batch;
      } else if outcome.PermanentRejection? || |batch| <= 1 {
        return 0, |batch|, [];
      } else if Stopping(service, |sent|) {
        return 0, 0, batch;
      }
      ghost var halves := DeliverHalves(batch, service, |sent|);
      assert (old(sent) + [batch]) + halves.sends == old(sent) + ([batch] + halves.sends);
      accepted, rejected, retryable := SendHalves(batch, service);
    }

    /** The two halves of a rejected batch; a retryable left half keeps its right neighbours. */
    method SendHalves(batch: seq<Event>, service: Service)
      returns (accepted: nat, rejected: nat, retryable: seq<Event>)
      requires |batch| > 1
      modifies this`sent
      ensures Delivered(DeliverHalves(batch, service, |old(sent)|), old(sent), sent, accepted, rejected, retryable)
      decreases |batch|, 0
    {
      var mid := |batch| / 2;
      ghost var base, left := sent, Deliver(batch[..mid], service, |sent|);
      accepted, rejected, retryable := DeliverBatch(batch[..mid], service);
      assert |sent| == |base| + |left.sends|;
      if retryable != [] {
        return accepted, rejected, retryable + batch[mid..];
      }
      if Stopping(service, |sent|) {
        return accepted, rejected, batch[mid..];
      }
      ghost var middle, right := sent, Deliver(batch[mid..], service, |sent|);
      var acceptedR, rejectedR;
      acceptedR, rejectedR, retryable := DeliverBatch(batch[mid..], service);
      BothHalves(left, right, base, middle, sent);
      accepted, rejected := accepted + acceptedR, rejected + rejectedR;
    }

    /** Sends the front batch while `more` arrives behind it, and puts back what must be retried. */
    method SendFront(service: Service, more: seq<Event>) returns (accepted: nat, rejected: nat, retry: bool)
      requires Valid() && queue != [] && forall e <- more :: Admissible(e)
      modifies this`queue, this`sent, this`fates, this`batches
      ensures Valid()
      ensures Now() == Round(old(Now()), batchSize, service, more)
      ensures retry == (FrontDelivery(old(Now()), batchSize, service).retryable != [])
      ensures Count(fates, Taken) == old(Count(fates, Taken)) + accepted
      ensures Count(fates, Dropped) == old(Count(fates, Dropped)) + rejected
    {
      ghost var d := FrontDelivery(Now(), batchSize, service);
      CountSplits(fates, d.fates, Taken);
      CountSplits(fates, d.fates, Dropped);
      RoundAdmissible(Now(), batchSize, service, more);
      var batch := TakeBatch();
      assert batch == old(queue)[..|batch|] && queue == old(queue)[|batch|..];
      queue := queue + more;
      var retryable;
      accepted, rejected, retryable := DeliverBatch(batch, service);
      fates, batches := fates + d.fates, batches + 1;
      retry := retryable != [];
      if retry { RequeueFront(retryable); }
    }

    /** Sends batch after batch until the queue is empty or a batch is retryable. `arrivals` lists what
        other threads append while each batch is in flight. The queue is left with exactly the old queue
        and those arrivals less the events settled; the report counts these, and the payloads sent are the
        drain's. */
    method DrainLocked(service: Service, arrivals: seq<seq<Event>>) returns (report: Report)
      requires Valid() && AllAdmissible(arrivals)
      modifies this`queue, this`sent, this`fates, this`batches
      ensures Valid()
      ensures Now() == Drain(old(Now()), batchSize, service, arrivals) && LeavesSuffix(old(Now()), Now(), arrivals)
      ensures report.accepted == Count(fates, Taken) - old(Count(fates, Taken))
      ensures report.rejected == Count(fates, Dropped) - old(Count(fates, Dropped))
      ensures report.accepted + report.rejected == |fates| - |old(fates)|
      ensures report.undelivered == queue
    {
      CountsTotal(fates);
      DrainLeavesSuffix(Now(), batchSize, service, arrivals);
      var accepted, rejected, retry, coming := 0, 0, false, arrivals;
      while queue != [] && !retry
        invariant Valid() && AllAdmissible(coming)
        invariant Count(fates, Taken) == old(Count(fates, Taken)) + accepted
        invariant Count(fates, Dropped) == old(Count(fates, Dropped)) + rejected
        invariant Drain(old(Now()), batchSize, service, arrivals) ==
                  if retry then Now() else Drain(Now(), batchSize, service, coming)
        decreases !retry, |coming|, |queue|
      {
        var acceptedB, rejectedB;
        acceptedB, rejectedB, retry := SendFront(service, First(coming));
        accepted, rejected, coming := accepted + acceptedB, rejected + rejectedB, Later(coming);
      }
      CountsTotal(fates);
      report := Report(accepted, rejected, queue);
    }
  }

  /** What a method that sends must report of a delivery. */
  ghost predicate Delivered(d: Delivery, before: seq<seq<Event>>, after: seq<seq<Event>>, accepted: nat, rejected: nat,
                            retryable: seq<Event>) {
    && after == before + d.sends && retryable == d.retryable
    && accepted == Count(d.fates, Taken) && rejected == Count(d.fates, Dropped)
  }

  lemma BothHalves(left: Delivery, right: Delivery, before: seq<seq<Event>>, middle: seq<seq<Event>>,
                   after: seq<seq<Event>>)
    requires middle == before + left.sends && after == middle + right.sends
    ensures after == before + (left.sends + right.sends)
    ensures Count(left.fates + right.fates, Taken) == Count(left.fates, Taken) + Count(right.fates, Taken)
    ensures Count(left.fates + right.fates, Dropped) == Count(left.fates, Dropped) + Count(right.fates, Dropped)
  {
    CountSplits(left.fates, right.fates, Taken);
    CountSplits(left.fates, right.fates, Dropped);
  }

  lemma UniformCounts(n: nat)
    ensures Count(Same(Taken, n), Taken) == n && Count(Same(Taken, n), Dropped) == 0
    ensures Count(Same(Dropped, n), Taken) == 0 && Count(Same(Dropped, n), Dropped) == n
  {
    CountSame(Taken, n, Taken);
    CountSame(Taken, n, Dropped);
    CountSame(Dropped, n, Taken);
    CountSame(Dropped, n, Dropped);
  }
}
