/** Inserting a batch while isolating rows that the native driver cannot encode. */
module Isolation {
  import opened Options
  import opened Trials

  /** A parsed delivery; boundary markers carry no row. */
  datatype Buffered = Buffered(id: nat, row: Option<string>)

  datatype Attempt = Inserted | RowRejected | Unavailable

  /** The n-th native insert of the process, on one batch, may end in any way. */
  type Driver = (nat, seq<Buffered>) -> Attempt

  function Ask(driver: Driver, call: nat, batch: seq<Buffered>): Attempt {
    driver(call, batch)
  }

  datatype Fate = Durable | Retry | Dead

  /** One fate per event; the batches handed to the driver, by their positions, with its answers; and the
      number of native inserts used so far. */
  datatype Outcome = Outcome(fates: seq<Fate>, inserts: seq<Trial<Attempt>>, calls: nat)

  predicate MarkersOnly(batch: seq<Buffered>) {
    forall e <- batch :: e.row.None?
  }

  function All(fate: Fate, n: nat): seq<Fate> {
    seq(n, i => fate)
  }

  /** Markers need no insert; a transient failure keeps the whole batch; an encoding failure of
      several events splits the batch, and of one event dead-letters it. */
  function Isolate(batch: seq<Buffered>, driver: Driver, calls: nat): Outcome
    decreases |batch|
  {
    if MarkersOnly(batch) then Outcome(All(Durable, |batch|), [], calls)
    else
      var answer := Ask(driver, calls, batch);
      var first := [Trial(0, |batch|, answer)];
      match answer {
        case Inserted => Outcome(All(Durable, |batch|), first, calls + 1)
        case Unavailable => Outcome(All(Retry, |batch|), first, calls + 1)
        case RowRejected =>
          if |batch| == 1 then Outcome([Dead], first, calls + 1)
          else
            var mid := |batch| / 2;
            var left := Isolate(batch[..mid], driver, calls + 1);
            var right := Isolate(batch[mid..], driver, left.calls);
            Outcome(left.fates + right.fates, Halves(answer, |batch|, left.inserts, right.inserts, mid), right.calls)
      }
  }

  /** The events that met one fate, in batch order. */
  function Pick(batch: seq<Buffered>, fates: seq<Fate>, fate: Fate): seq<Buffered>
    requires |fates| == |batch|
  {
    if batch == [] then []
    else (if fates[0] == fate then [batch[0]] else []) + Pick(batch[1..], fates[1..], fate)
  }

  // ----- every event gets exactly one fate

  lemma {:induction false} OneFateEach(batch: seq<Buffered>, driver: Driver, calls: nat)
    ensures |Isolate(batch, driver, calls).fates| == |batch|
    decreases |batch|
  {
    if !MarkersOnly(batch) && Ask(driver, calls, batch).RowRejected? && |batch| > 1 {
      var mid := |batch| / 2;
      var left := Isolate(batch[..mid], driver, calls + 1);
      OneFateEach(batch[..mid], driver, calls + 1);
      OneFateEach(batch[mid..], driver, left.calls);
    }
  }

  lemma {:induction false} PickSplits(a: seq<Buffered>, b: seq<Buffered>, fa: seq<Fate>, fb: seq<Fate>, fate: Fate)
    requires |fa| == |a| && |fb| == |b|
    ensures Pick(a + b, fa + fb, fate) == Pick(a, fa, fate) + Pick(b, fb, fate)
  {
    if a == [] {
      assert a + b == b && fa + fb == fb;
    } else {
      var head := if fa[0] == fate then [a[0]] else [];
      assert (a + b)[1..] == a[1..] + b && (fa + fb)[1..] == fa[1..] + fb;
      PickSplits(a[1..], b, fa[1..], fb, fate);
      assert head + (Pick(a[1..], fa[1..], fate) + Pick(b, fb, fate))
          == (head + Pick(a[1..], fa[1..], fate)) + Pick(b, fb, fate);
    }
  }

  lemma {:induction false} PickUniform(batch: seq<Buffered>, n: nat, met: Fate, fate: Fate)
    requires n == |batch|
    ensures Pick(batch, All(met, n), fate) == if met == fate then batch else []
  {
    if batch != [] {
      assert All(met, n)[1..] == All(met, n - 1);
      PickUniform(batch[1..], n - 1, met, fate);
    }
  }

  /** The three picks partition the batch: nothing is dropped or duplicated. */
  lemma {:induction false} PicksPartition(batch: seq<Buffered>, fates: seq<Fate>)
    requires |fates| == |batch|
    ensures multiset(batch) == multiset(Pick(batch, fates, Durable)) + multiset(Pick(batch, fates, Retry))
                               + multiset(Pick(batch, fates, Dead))
  {
    if batch != [] {
      assert batch == [batch[0]] + batch[1..];
      PicksPartition(batch[1..], fates[1..]);
    }
  }

  // ----- what the fates mean

  /** Markers are never dead-lettered by an insert, whatever the driver does. */
  lemma {:induction false} MarkersNeverDie(batch: seq<Buffered>, driver: Driver, calls: nat, k: nat)
    requires k < |batch| && batch[k].row.None?
    ensures |Isolate(batch, driver, calls).fates| == |batch| && Isolate(batch, driver, calls).fates[k] != Dead
    decreases |batch|
  {
    OneFateEach(batch, driver, calls);
    if !MarkersOnly(batch) && Ask(driver, calls, batch).RowRejected? && |batch| > 1 {
      var mid := |batch| / 2;
      var left := Isolate(batch[..mid], driver, calls + 1);
      OneFateEach(batch[..mid], driver, calls + 1);
      if k < mid {
        MarkersNeverDie(batch[..mid], driver, calls + 1, k);
      } else {
        MarkersNeverDie(batch[mid..], driver, left.calls, k - mid);
      }
    }
  }

  /** Without a transient failure among the inserts made, nothing is left to retry. */
  lemma {:induction false} RetryOnlyAfterTransient(batch: seq<Buffered>, driver: Driver, calls: nat)
    requires forall n: nat, b: seq<Buffered> :: !Ask(driver, n, b).Unavailable?
    ensures Retry !in Isolate(batch, driver, calls).fates
    decreases |batch|
  {
    if !MarkersOnly(batch) && Ask(driver, calls, batch).RowRejected? && |batch| > 1 {
      var mid := |batch| / 2;
      RetryOnlyAfterTransient(batch[..mid], driver, calls + 1);
      RetryOnlyAfterTransient(batch[mid..], driver, Isolate(batch[..mid], driver, calls + 1).calls);
    }
  }

  ghost predicate HasBad(batch: seq<Buffered>, bad: string -> bool) {
    exists e <- batch :: e.row.Some? && bad(e.row.value)
  }

  /** A driver that refuses exactly the batches holding an unencodable row. */
  ghost predicate RefusesExactly(driver: Driver, bad: string -> bool) {
    forall n: nat, b: seq<Buffered> ::
      Ask(driver, n, b) == if HasBad(b, bad) then RowRejected else Inserted
  }

  /** Against such a driver exactly the unencodable rows are dead-lettered, and all else is stored. */
  lemma {:induction false} IsolationIsExact(batch: seq<Buffered>, driver: Driver, calls: nat, bad: string -> bool)
    requires RefusesExactly(driver, bad)
    ensures Isolate(batch, driver, calls).fates
            == seq(|batch|, i requires 0 <= i < |batch| =>
                 if batch[i].row.Some? && bad(batch[i].row.value) then Dead else Durable)
    decreases |batch|
  {
    if !MarkersOnly(batch) && Ask(driver, calls, batch).RowRejected? && |batch| > 1 {
      var mid := |batch| / 2;
      var left := Isolate(batch[..mid], driver, calls + 1);
      IsolationIsExact(batch[..mid], driver, calls + 1, bad);
      IsolationIsExact(batch[mid..], driver, left.calls, bad);
    }
  }

  /** Isolation costs at most 2n - 1 native inserts. */
  lemma {:induction false} IsolationIsBounded(batch: seq<Buffered>, driver: Driver, calls: nat)
    requires batch != []
    ensures Isolate(batch, driver, calls).calls - calls <= 2 * |batch| - 1
    decreases |batch|
  {
    if !MarkersOnly(batch) && Ask(driver, calls, batch).RowRejected? && |batch| > 1 {
      var mid := |batch| / 2;
      IsolationIsBounded(batch[..mid], driver, calls + 1);
      IsolationIsBounded(batch[mid..], driver, Isolate(batch[..mid], driver, calls + 1).calls);
    }
  }

  // ----- fates are what the driver answered

  /** The j-th answer is the driver's, to insert number `calls + j` of those events. */
  ghost predicate True(batch: seq<Buffered>, driver: Driver, calls: nat, inserts: seq<Trial<Attempt>>) {
    forall j :: 0 <= j < |inserts| ==>
      && inserts[j].low <= inserts[j].high <= |batch|
      && inserts[j].answer == Ask(driver, calls + j, batch[inserts[j].low..inserts[j].high])
  }

  lemma HalvesAreTrue(batch: seq<Buffered>, mid: nat, driver: Driver, calls: nat, left: seq<Trial<Attempt>>,
                      right: seq<Trial<Attempt>>)
    requires mid <= |batch| && True(batch[..mid], driver, calls + 1, left)
    requires True(batch[mid..], driver, calls + 1 + |left|, right)
    ensures True(batch, driver, calls, Halves(Ask(driver, calls, batch), |batch|, left, right, mid))
  {
    var all := Halves(Ask(driver, calls, batch), |batch|, left, right, mid);
    forall j | 0 <= j < |all|
      ensures && all[j].low <= all[j].high <= |batch|
              && all[j].answer == Ask(driver, calls + j, batch[all[j].low..all[j].high])
    {
      HalvesAt(Ask(driver, calls, batch), |batch|, left, right, mid, j);
      if j == 0 {
        assert batch[0..|batch|] == batch;
      } else if j <= |left| {
        var t := left[j - 1];
        assert batch[..mid][t.low..t.high] == batch[t.low..t.high];
      } else {
        var t := right[j - 1 - |left|];
        assert batch[mid..][t.low..t.high] == batch[t.low + mid..t.high + mid];
      }
    }
  }

  /** As many records as inserts, all of them true. */
  ghost predicate Recorded(batch: seq<Buffered>, driver: Driver, calls: nat, outcome: Outcome) {
    outcome.calls == calls + |outcome.inserts| && True(batch, driver, calls, outcome.inserts)
  }

  lemma HalvesRecorded(batch: seq<Buffered>, mid: nat, driver: Driver, calls: nat, left: Outcome, right: Outcome)
    requires mid <= |batch| && Ask(driver, calls, batch).RowRejected?
    requires Recorded(batch[..mid], driver, calls + 1, left) && Recorded(batch[mid..], driver, left.calls, right)
    ensures Recorded(batch, driver, calls,
                     Outcome(left.fates + right.fates,
                             Halves(RowRejected, |batch|, left.inserts, right.inserts, mid), right.calls))
  {
    HalvesAreTrue(batch, mid, driver, calls, left.inserts, right.inserts);
  }

  /** The records are true, for every driver. */
  lemma {:induction false} InsertsAreTrue(batch: seq<Buffered>, driver: Driver, calls: nat)
    ensures Recorded(batch, driver, calls, Isolate(batch, driver, calls))
    decreases |batch|
  {
    if MarkersOnly(batch) {
    } else if Ask(driver, calls, batch).RowRejected? && |batch| > 1 {
      var mid := |batch| / 2;
      var left := Isolate(batch[..mid], driver, calls + 1);
      InsertsAreTrue(batch[..mid], driver, calls + 1);
      InsertsAreTrue(batch[mid..], driver, left.calls);
      HalvesRecorded(batch, mid, driver, calls, left, Isolate(batch[mid..], driver, left.calls));
    } else {
      SettledIsTrue(batch, driver, calls);
    }
  }

  lemma SettledIsTrue(batch: seq<Buffered>, driver: Driver, calls: nat)
    ensures True(batch, driver, calls, [Trial(0, |batch|, Ask(driver, calls, batch))])
  {
    assert batch[0..|batch|] == batch;
  }

  /** The fate of one event, by what its inserts were answered: retried if and only if one found ClickHouse
      unavailable; dead if and only if the event alone was refused; and a row is durable if and only if an
      insert holding it went through. */
  ghost predicate FateIsAnswer(fate: Fate, event: Buffered, inserts: seq<Trial<Attempt>>, k: nat) {
    && (fate == Retry <==> Met(inserts, k, Unavailable))
    && (fate == Dead <==> MetAlone(inserts, k, RowRejected))
    && (event.row.Some? ==> (fate == Durable <==> Met(inserts, k, Inserted)))
  }

  /** A refused batch of several events adds nothing to what its halves say. */
  lemma SplitFate(fate: Fate, event: Buffered, n: nat, left: seq<Trial<Attempt>>, right: seq<Trial<Attempt>>, mid: nat,
                  k: nat)
    requires 0 < mid < n && k < n && Within(left, 0, mid) && Within(right, 0, n - mid)
    requires k < mid ==> FateIsAnswer(fate, event, left, k)
    requires k >= mid ==> FateIsAnswer(fate, event, right, k - mid)
    ensures FateIsAnswer(fate, event, Halves(RowRejected, n, left, right, mid), k)
  {
    HalvesMet(RowRejected, n, left, right, mid, k, Inserted);
    HalvesMet(RowRejected, n, left, right, mid, k, RowRejected);
    HalvesMet(RowRejected, n, left, right, mid, k, Unavailable);
  }

  ghost predicate AllAnswers(batch: seq<Buffered>, outcome: Outcome) {
    && |outcome.fates| == |batch| && Within(outcome.inserts, 0, |batch|)
    && forall k :: 0 <= k < |batch| ==> FateIsAnswer(outcome.fates[k], batch[k], outcome.inserts, k)
  }

  lemma HalvesAnswer(batch: seq<Buffered>, mid: nat, left: Outcome, right: Outcome)
    requires 0 < mid < |batch| && AllAnswers(batch[..mid], left) && AllAnswers(batch[mid..], right)
    ensures AllAnswers(batch, Outcome(left.fates + right.fates,
                                      Halves(RowRejected, |batch|, left.inserts, right.inserts, mid), right.calls))
  {
    var n, fates := |batch|, left.fates + right.fates;
    var inserts := Halves(RowRejected, n, left.inserts, right.inserts, mid);
    HalvesWithin(RowRejected, n, left.inserts, right.inserts, mid);
    forall k | 0 <= k < n ensures FateIsAnswer(fates[k], batch[k], inserts, k) {
      if k < mid {
        assert batch[..mid][k] == batch[k] && fates[k] == left.fates[k];
      } else {
        assert batch[mid..][k - mid] == batch[k] && fates[k] == right.fates[k - mid];
      }
      SplitFate(fates[k], batch[k], n, left.inserts, right.inserts, mid, k);
    }
  }

  /** For every driver, every event's fate is exactly what its own inserts were answered. */
  lemma {:induction false} FatesAreAnswers(batch: seq<Buffered>, driver: Driver, calls: nat)
    ensures AllAnswers(batch, Isolate(batch, driver, calls))
    decreases |batch|
  {
    if MarkersOnly(batch) {
      assert forall k :: 0 <= k < |batch| ==> batch[k] in batch;
    } else if Ask(driver, calls, batch).RowRejected? && |batch| > 1 {
      var mid := |batch| / 2;
      var left := Isolate(batch[..mid], driver, calls + 1);
      FatesAreAnswers(batch[..mid], driver, calls + 1);
      FatesAreAnswers(batch[mid..], driver, left.calls);
      HalvesAnswer(batch, mid, left, Isolate(batch[mid..], driver, left.calls));
    } else {
      SettledAnswers(batch, Ask(driver, calls, batch), Isolate(batch, driver, calls));
    }
  }

  lemma SettledAnswers(batch: seq<Buffered>, answer: Attempt, outcome: Outcome)
    requires (!answer.RowRejected? || |batch| == 1) && outcome.inserts == [Trial(0, |batch|, answer)]
    requires outcome.fates == All(if answer.Inserted? then Durable else if answer.Unavailable? then Retry else Dead,
                                  |batch|)
    ensures AllAnswers(batch, outcome)
  {
    assert Trial(0, |batch|, answer) in outcome.inserts;
  }
}
