/** Sending one batch of SDK events: bisection of rejected payloads, and its order guarantees. */
module Batches {
  import opened Trials

  const MAX_EVENT_BYTES: nat := 64 * 1024
  const MAX_REQUEST_BYTES: nat := 512 * 1024

  /** A canonical event; `size` is its compact JSON encoding in bytes. */
  datatype Event = Event(id: nat, size: nat)

  datatype Outcome = Accepted | Retryable | PayloadRejected | PermanentRejection

  /** The reply to the n-th send, whatever batch it carries, and whether shutdown has been requested
      by then. */
  datatype Service = Service(reply: (nat, seq<Event>) -> Outcome, stopping: nat -> bool)

  function Reply(service: Service, n: nat, batch: seq<Event>): Outcome {
    service.reply(n, batch)
  }

  predicate Stopping(service: Service, n: nat) {
    service.stopping(n)
  }

  datatype Fate = Taken | Dropped

  /** Fates of a prefix of the batch, the events to retry, and the payloads sent, in order. */
  datatype Delivery = Delivery(fates: seq<Fate>, retryable: seq<Event>, sends: seq<seq<Event>>)

  function Same(fate: Fate, n: nat): seq<Fate> {
    seq(n, i => fate)
  }

  /** Sends a batch as the n-th send; only an explicit payload rejection is bisected, and never once
      stopping. */
  function Deliver(batch: seq<Event>, service: Service, n: nat): Delivery
    decreases |batch|, 1
  {
    match Reply(service, n, batch) {
      case Accepted => Delivery(Same(Taken, |batch|), [], [batch])
      case Retryable => Delivery([], batch, [batch])
      case PermanentRejection => Delivery(Same(Dropped, |batch|), [], [batch])
      case PayloadRejected =>
        if |batch| <= 1 then Delivery(Same(Dropped, |batch|), [], [batch])
        else if Stopping(service, n + 1) then Delivery([], batch, [batch])
        else var halves := DeliverHalves(batch, service, n + 1); halves.(sends := [batch] + halves.sends)
    }
  }

  /** After a rejected send: the left half, and the right half unless the left must be retried. */
  function DeliverHalves(batch: seq<Event>, service: Service, n: nat): Delivery
    requires |batch| > 1
    decreases |batch|, 0
  {
    var mid := |batch| / 2;
    var left := Deliver(batch[..mid], service, n);
    if left.retryable != [] then left.(retryable := left.retryable + batch[mid..])
    else if Stopping(service, n + |left.sends|) then left.(retryable := batch[mid..])
    else
      var right := Deliver(batch[mid..], service, n + |left.sends|);
      Delivery(left.fates + right.fates, right.retryable, left.sends + right.sends)
  }

  /** The retryable part is exactly the suffix of the batch after the settled events: no outcome
      sequence reorders, duplicates or drops an event. */
  lemma {:induction false} RetryableIsSuffix(batch: seq<Event>, service: Service, n: nat)
    ensures var d := Deliver(batch, service, n);
            |d.fates| <= |batch| && d.retryable == batch[|d.fates|..]
    decreases |batch|
  {
    if Reply(service, n, batch).PayloadRejected? && |batch| > 1 && !Stopping(service, n + 1) {
      var mid := |batch| / 2;
      var left := Deliver(batch[..mid], service, n + 1);
      RetryableIsSuffix(batch[..mid], service, n + 1);
      RetryableIsSuffix(batch[mid..], service, n + 1 + |left.sends|);
    }
  }

  /** One batch costs between one and 2n - 1 sends. */
  lemma {:induction false} SendsAreBounded(batch: seq<Event>, service: Service, n: nat)
    requires batch != []
    ensures 1 <= |Deliver(batch, service, n).sends| <= 2 * |batch| - 1
    decreases |batch|
  {
    if Reply(service, n, batch).PayloadRejected? && |batch| > 1 && !Stopping(service, n + 1) {
      var mid := |batch| / 2;
      var left := Deliver(batch[..mid], service, n + 1);
      SendsAreBounded(batch[..mid], service, n + 1);
      SendsAreBounded(batch[mid..], service, n + 1 + |left.sends|);
    }
  }

  /** Every payload sent is a contiguous slice of the batch. */
  lemma SendsAreSlices(batch: seq<Event>, service: Service, n: nat, k: nat) returns (low: nat, high: nat)
    requires k < |Deliver(batch, service, n).sends|
    ensures low <= high <= |batch| && Deliver(batch, service, n).sends[k] == batch[low..high]
  {
    var trials := FatesAreAnswers(batch, service, n);
    low, high := trials[k].low, trials[k].high;
  }

  ghost predicate HasInvalid(batch: seq<Event>, valid: Event -> bool) {
    exists e <- batch :: !valid(e)
  }

  /** A service that rejects the payload of exactly the batches holding an invalid event. */
  ghost predicate RejectsExactly(service: Service, valid: Event -> bool) {
    && (forall n: nat, b: seq<Event> ::
          Reply(service, n, b) == if HasInvalid(b, valid) then PayloadRejected else Accepted)
    && (forall n: nat :: !Stopping(service, n))
  }

  /** The fate of each event of a sequence when exactly the invalid ones are rejected. */
  function Judged(events: seq<Event>, valid: Event -> bool): seq<Fate> {
    seq(|events|, i requires 0 <= i < |events| => if valid(events[i]) then Taken else Dropped)
  }

  /** Against such a service each valid event is accepted and each invalid one is rejected. */
  lemma {:induction false} BisectionIsExact(batch: seq<Event>, service: Service, n: nat, valid: Event -> bool)
    requires RejectsExactly(service, valid)
    ensures var d := Deliver(batch, service, n);
            d.retryable == [] && d.fates == Judged(batch, valid)
    decreases |batch|
  {
    if Reply(service, n, batch).PayloadRejected? && |batch| > 1 {
      var mid := |batch| / 2;
      var left := Deliver(batch[..mid], service, n + 1);
      BisectionIsExact(batch[..mid], service, n + 1, valid);
      BisectionIsExact(batch[mid..], service, n + 1 + |left.sends|, valid);
    }
  }

  // ----- request sizes

  /** Bytes of `{"events":[...]}` in the compact encoding: braces, key and brackets, then the events
      separated by commas. */
  function RequestBytes(batch: seq<Event>): nat {
    13 + Sizes(batch) + if batch == [] then 0 else |batch| - 1
  }

  function Sizes(batch: seq<Event>): nat {
    if batch == [] then 0 else Sizes(batch[..|batch| - 1]) + batch[|batch| - 1].size
  }

  predicate Admissible(e: Event) {
    e.size <= MAX_EVENT_BYTES
  }

  lemma {:induction false} SizesSplit(a: seq<Event>, b: seq<Event>)
    ensures Sizes(a + b) == Sizes(a) + Sizes(b)
    decreases |b|
  {
    if b == [] {
      assert a + b == a;
    } else {
      assert (a + b)[..|a + b| - 1] == a + b[..|b| - 1];
      SizesSplit(a, b[..|b| - 1]);
    }
  }

  lemma SliceFits(batch: seq<Event>, low: nat, high: nat)
    requires low <= high <= |batch| && RequestBytes(batch) <= MAX_REQUEST_BYTES
    ensures RequestBytes(batch[low..high]) <= MAX_REQUEST_BYTES
  {
    SizesSplit(batch[..low], batch[low..]);
    SizesSplit(batch[low..high], batch[high..]);
    assert batch == batch[..low] + batch[low..];
    assert batch[low..] == batch[low..high] + batch[high..];
  }

  /** Every payload sent for a batch that fits one request fits one request. */
  lemma SendsFit(batch: seq<Event>, service: Service, n: nat)
    requires RequestBytes(batch) <= MAX_REQUEST_BYTES
    ensures forall b <- Deliver(batch, service, n).sends :: RequestBytes(b) <= MAX_REQUEST_BYTES
  {
    var sends := Deliver(batch, service, n).sends;
    forall k | 0 <= k < |sends| ensures RequestBytes(sends[k]) <= MAX_REQUEST_BYTES {
      var low, high := SendsAreSlices(batch, service, n, k);
      SliceFits(batch, low, high);
    }
  }

  // ----- counting fates

  function Count(fates: seq<Fate>, fate: Fate): nat {
    if fates == [] then 0 else (if fates[0] == fate then 1 else 0) + Count(fates[1..], fate)
  }

  lemma {:induction false} CountSplits(a: seq<Fate>, b: seq<Fate>, fate: Fate)
    ensures Count(a + b, fate) == Count(a, fate) + Count(b, fate)
  {
    if a == [] {
      assert a + b == b;
    } else {
      assert (a + b)[1..] == a[1..] + b;
      CountSplits(a[1..], b, fate);
    }
  }

  lemma {:induction false} CountsTotal(fates: seq<Fate>)
    ensures Count(fates, Taken) + Count(fates, Dropped) == |fates|
  {
    if fates != [] { CountsTotal(fates[1..]); }
  }

  lemma {:induction false} CountSame(met: Fate, n: nat, fate: Fate)
    ensures Count(Same(met, n), fate) == if met == fate then n else 0
  {
    if n > 0 {
      assert Same(met, n)[1..] == Same(met, n - 1);
      CountSame(met, n - 1, fate);
    }
  }

  /** No send but the first is made once shutdown was seen. */
  lemma {:induction false} NothingSentOnceStopping(batch: seq<Event>, service: Service, n: nat)
    ensures forall i :: n < i < n + |Deliver(batch, service, n).sends| ==> !Stopping(service, i)
    decreases |batch|
  {
    if Reply(service, n, batch).PayloadRejected? && |batch| > 1 && !Stopping(service, n + 1) {
      var mid := |batch| / 2;
      var left := Deliver(batch[..mid], service, n + 1);
      NothingSentOnceStopping(batch[..mid], service, n + 1);
      NothingSentOnceStopping(batch[mid..], service, n + 1 + |left.sends|);
    }
  }

  // ----- fates are what the server answered

  /** The j-th trial is the j-th send: a slice of the batch, with the server's answer to it. */
  ghost predicate TrueTo(batch: seq<Event>, service: Service, n: nat, sends: seq<seq<Event>>,
                         trials: seq<Trial<Outcome>>) {
    && |trials| == |sends|
    && forall j :: 0 <= j < |trials| ==>
         && trials[j].low <= trials[j].high <= |batch| && sends[j] == batch[trials[j].low..trials[j].high]
         && trials[j].answer == Reply(service, n + j, sends[j])
  }

  /** An event is taken if and only if a send holding it was accepted, and dropped if and only if a send
      holding it was refused for good or the event alone was refused; one whose send must be repeated is
      neither. */
  ghost predicate FateIsAnswer(fates: seq<Fate>, trials: seq<Trial<Outcome>>, k: nat) {
    && (k < |fates| && fates[k] == Taken <==> Met(trials, k, Accepted))
    && (k < |fates| && fates[k] == Dropped <==>
          Met(trials, k, PermanentRejection) || MetAlone(trials, k, PayloadRejected))
    && (Met(trials, k, Retryable) ==> k >= |fates|)
  }

  ghost predicate Explained(n: nat, fates: seq<Fate>, trials: seq<Trial<Outcome>>) {
    && |fates| <= n && Within(trials, 0, n)
    && forall k :: 0 <= k < n ==> FateIsAnswer(fates, trials, k)
  }

  /** If anything is left to retry, its first event was in a send that must be repeated, or shutdown was seen
      after one of the sends. */
  ghost predicate RetriesForCause(d: Delivery, service: Service, n: nat, trials: seq<Trial<Outcome>>) {
    d.retryable != [] ==>
      Met(trials, |d.fates|, Retryable) || exists i :: n < i <= n + |d.sends| && Stopping(service, i)
  }

  lemma HalvesTrue(batch: seq<Event>, mid: nat, service: Service, n: nat, left: seq<seq<Event>>, right: seq<seq<Event>>,
                   lt: seq<Trial<Outcome>>, rt: seq<Trial<Outcome>>)
    requires mid <= |batch| && TrueTo(batch[..mid], service, n + 1, left, lt)
    requires TrueTo(batch[mid..], service, n + 1 + |left|, right, rt)
    ensures TrueTo(batch, service, n, [batch] + (left + right), Halves(Reply(service, n, batch), |batch|, lt, rt, mid))
  {
    var sends, all := [batch] + (left + right), Halves(Reply(service, n, batch), |batch|, lt, rt, mid);
    forall j | 0 <= j < |all|
      ensures && all[j].low <= all[j].high <= |batch| && sends[j] == batch[all[j].low..all[j].high]
              && all[j].answer == Reply(service, n + j, sends[j])
    {
      HalvesAt(Reply(service, n, batch), |batch|, lt, rt, mid, j);
      if j == 0 {
        assert batch[0..|batch|] == batch;
      } else if j <= |left| {
        var t := lt[j - 1];
        assert sends[j] == left[j - 1] && batch[..mid][t.low..t.high] == batch[t.low..t.high];
      } else {
        var t := rt[j - 1 - |left|];
        assert sends[j] == right[j - 1 - |left|] && batch[mid..][t.low..t.high] == batch[t.low + mid..t.high + mid];
      }
    }
  }

  lemma HalvesExplained(n: nat, mid: nat, left: seq<Fate>, right: seq<Fate>, lt: seq<Trial<Outcome>>,
                        rt: seq<Trial<Outcome>>)
    requires 0 < mid < n && Explained(mid, left, lt) && Explained(n - mid, right, rt)
    requires |left| < mid ==> right == [] && rt == []
    ensures Explained(n, left + right, Halves(PayloadRejected, n, lt, rt, mid))
  {
    var fates, all := left + right, Halves(PayloadRejected, n, lt, rt, mid);
    HalvesWithin(PayloadRejected, n, lt, rt, mid);
    forall k | 0 <= k < n ensures FateIsAnswer(fates, all, k) {
      HalvesMet(PayloadRejected, n, lt, rt, mid, k, Accepted);
      HalvesMet(PayloadRejected, n, lt, rt, mid, k, PermanentRejection);
      HalvesMet(PayloadRejected, n, lt, rt, mid, k, PayloadRejected);
      HalvesMet(PayloadRejected, n, lt, rt, mid, k, Retryable);
      if k < mid {
        assert FateIsAnswer(left, lt, k);
      } else {
        assert FateIsAnswer(right, rt, k - mid);
      }
    }
  }

  /** All of it, for one delivery. */
  ghost predicate Accountable(batch: seq<Event>, service: Service, n: nat, d: Delivery, trials: seq<Trial<Outcome>>) {
    && TrueTo(batch, service, n, d.sends, trials) && Explained(|batch|, d.fates, trials)
    && d.retryable == batch[|d.fates|..] && RetriesForCause(d, service, n, trials)
  }

  lemma JoinedBoth(batch: seq<Event>, service: Service, n: nat, d: Delivery, left: Delivery, right: Delivery,
                   lt: seq<Trial<Outcome>>, rt: seq<Trial<Outcome>>)
    requires d == Delivery(left.fates + right.fates, right.retryable, [batch] + (left.sends + right.sends))
    requires |batch| > 1 && Reply(service, n, batch).PayloadRejected?
    requires Accountable(batch[..|batch| / 2], service, n + 1, left, lt) && left.retryable == []
    requires Accountable(batch[|batch| / 2..], service, n + 1 + |left.sends|, right, rt)
    ensures Accountable(batch, service, n, d, Halves(PayloadRejected, |batch|, lt, rt, |batch| / 2))
  {
    var mid := |batch| / 2;
    HalvesTrue(batch, mid, service, n, left.sends, right.sends, lt, rt);
    HalvesExplained(|batch|, mid, left.fates, right.fates, lt, rt);
    assert |left.fates| == mid && batch[mid..][|right.fates|..] == batch[mid + |right.fates|..];
    if right.retryable != [] {
      HalvesMet(PayloadRejected, |batch|, lt, rt, mid, mid + |right.fates|, Retryable);
    }
  }

  lemma JoinedStopped(batch: seq<Event>, service: Service, n: nat, d: Delivery, left: Delivery,
                      lt: seq<Trial<Outcome>>)
    requires d == Delivery(left.fates, left.retryable + batch[|batch| / 2..], [batch] + left.sends)
    requires |batch| > 1 && Reply(service, n, batch).PayloadRejected?
    requires Accountable(batch[..|batch| / 2], service, n + 1, left, lt)
    requires left.retryable != [] || Stopping(service, n + 1 + |left.sends|)
    ensures Accountable(batch, service, n, d, Halves(PayloadRejected, |batch|, lt, [], |batch| / 2))
  {
    var mid := |batch| / 2;
    HalvesTrue(batch, mid, service, n, left.sends, [], lt, []);
    HalvesExplained(|batch|, mid, left.fates, [], lt, []);
    assert left.sends + [] == left.sends && left.fates + [] == left.fates;
    assert batch[..mid][|left.fates|..] + batch[mid..] == batch[|left.fates|..];
    if left.retryable != [] {
      HalvesMet(PayloadRejected, |batch|, lt, [], mid, |left.fates|, Retryable);
    } else {
      assert Stopping(service, n + 1 + |left.sends|);
    }
  }

  lemma AnsweredOnce(batch: seq<Event>, service: Service, n: nat, d: Delivery)
    requires d.sends == [batch]
    requires match Reply(service, n, batch)
             case Accepted => d.fates == Same(Taken, |batch|) && d.retryable == []
             case Retryable => d.fates == [] && d.retryable == batch
             case PermanentRejection => d.fates == Same(Dropped, |batch|) && d.retryable == []
             case PayloadRejected =>
               if |batch| <= 1 then d.fates == Same(Dropped, |batch|) && d.retryable == []
               else d.fates == [] && d.retryable == batch && Stopping(service, n + 1)
    ensures Accountable(batch, service, n, d, [Trial(0, |batch|, Reply(service, n, batch))])
  {
    var t := Trial(0, |batch|, Reply(service, n, batch));
    assert t in [t] && batch[0..|batch|] == batch;
  }

  /** For every service and batch: the sends are slices of the batch in order, every event's fate is exactly what
      the sends holding it were answered, and what is retried is so for cause. */
  lemma {:induction false} FatesAreAnswers(batch: seq<Event>, service: Service, n: nat)
      returns (trials: seq<Trial<Outcome>>)
    ensures Accountable(batch, service, n, Deliver(batch, service, n), trials)
    decreases |batch|
  {
    var d := Deliver(batch, service, n);
    if !(Reply(service, n, batch).PayloadRejected? && |batch| > 1) || Stopping(service, n + 1) {
      AnsweredOnce(batch, service, n, d);
      return [Trial(0, |batch|, Reply(service, n, batch))];
    }
    var mid := |batch| / 2;
    var left := Deliver(batch[..mid], service, n + 1);
    if left.retryable != [] || Stopping(service, n + 1 + |left.sends|) {
      assert DeliverHalves(batch, service, n + 1) == left.(retryable := left.retryable + batch[mid..]) by {
        assert [] + batch[mid..] == batch[mid..];
      }
      var lt := FatesAreAnswers(batch[..mid], service, n + 1);
      JoinedStopped(batch, service, n, d, left, lt);
      return Halves(PayloadRejected, |batch|, lt, [], mid);
    }
    var right := Deliver(batch[mid..], service, n + 1 + |left.sends|);
    assert DeliverHalves(batch, service, n + 1)
        == Delivery(left.fates + right.fates, right.retryable, left.sends + right.sends);
    var lt := FatesAreAnswers(batch[..mid], service, n + 1);
    var rt := FatesAreAnswers(batch[mid..], service, n + 1 + |left.sends|);
    JoinedBoth(batch, service, n, d, left, right, lt, rt);
    return Halves(PayloadRejected, |batch|, lt, rt, mid);
  }
}
