/** Fixed-window attempt counting: one bucket per scope and key, reset by the first attempt at or after the
    end of its window, and dropped once it has not been touched for two windows. Times are microseconds. */
module RateBuckets {
  import opened Options

  const SECOND: int := 1_000_000

  type Key = (string, string)

  datatype Bucket = Bucket(started: int, attempts: nat, updated: int)

  datatype Check = Check(key: Key, limit: nat)

  function Row(buckets: map<Key, Bucket>, key: Key): Option<Bucket> {
    if key in buckets then Some(buckets[key]) else None
  }

  /** The row after one attempt. */
  function Counted(row: Option<Bucket>, window: int, now: int): Bucket {
    if row.None? || row.value.started <= now - window * SECOND then Bucket(now, 1, now)
    else Bucket(row.value.started, row.value.attempts + 1, now)
  }

  /** Whole seconds, rounded up. */
  function Ceiling(micros: int): (seconds: int)
    ensures (seconds - 1) * SECOND < micros <= seconds * SECOND
  {
    -(-micros / SECOND)
  }

  /** Zero admits the attempt; otherwise the seconds to wait. */
  function Delay(row: Option<Bucket>, limit: nat, window: int, now: int): nat {
    var b := Counted(row, window, now);
    if b.attempts <= limit then 0
    else var wait := Ceiling(b.started + window * SECOND - now); if wait < 1 then 1 else wait
  }

  function Purged(buckets: map<Key, Bucket>, window: int, now: int): map<Key, Bucket> {
    map k | k in buckets && buckets[k].updated >= now - window * 2 * SECOND :: buckets[k]
  }

  // ----- runs of purges and attempts, by any number of requests

  datatype Step = Purge(now: int) | Attempt(key: Key, limit: nat, now: int)

  function Apply(buckets: map<Key, Bucket>, window: int, step: Step): map<Key, Bucket> {
    match step
    case Purge(now) => Purged(buckets, window, now)
    case Attempt(key, _, now) => buckets[key := Counted(Row(buckets, key), window, now)]
  }

  /** The delay each attempt got. */
  function Delays(buckets: map<Key, Bucket>, window: int, steps: seq<Step>): seq<nat>
    decreases |steps|
  {
    if steps == [] then []
    else
      var rest := Delays(Apply(buckets, window, steps[0]), window, steps[1..]);
      match steps[0]
      case Purge(_) => rest
      case Attempt(key, limit, now) => [Delay(Row(buckets, key), limit, window, now)] + rest
  }

  function After(buckets: map<Key, Bucket>, window: int, steps: seq<Step>): map<Key, Bucket>
    decreases |steps|
  {
    if steps == [] then buckets else After(Apply(buckets, window, steps[0]), window, steps[1..])
  }

  /** Times never go back, and start no earlier than `from`. */
  predicate Ordered(from: int, steps: seq<Step>)
    decreases |steps|
  {
    steps == [] || (from <= steps[0].now && Ordered(steps[0].now, steps[1..]))
  }

  ghost predicate Past(buckets: map<Key, Bucket>, time: int) {
    forall k <- buckets :: buckets[k].started <= buckets[k].updated <= time
  }

  // ----- one request, as the source runs it

  function PreflightSteps(checks: seq<Check>, now: int): seq<Step> {
    [Purge(now)] + seq(|checks|, i requires 0 <= i < |checks| => Attempt(checks[i].key, checks[i].limit, now))
  }

  function Largest(delays: seq<nat>): nat {
    if delays == [] then 0
    else var rest := Largest(delays[..|delays| - 1]);
         if delays[|delays| - 1] > rest then delays[|delays| - 1] else rest
  }

  lemma {:induction false} AfterSnoc(buckets: map<Key, Bucket>, window: int, steps: seq<Step>, step: Step)
    ensures After(buckets, window, steps + [step]) == Apply(After(buckets, window, steps), window, step)
    ensures Delays(buckets, window, steps + [step]) ==
            Delays(buckets, window, steps) +
            match step
            case Purge(_) => []
            case Attempt(key, limit, now) => [Delay(Row(After(buckets, window, steps), key), limit, window, now)]
    decreases |steps|
  {
    if steps != [] {
      AfterSnoc(Apply(buckets, window, steps[0]), window, steps[1..], step);
      assert (steps + [step])[1..] == steps[1..] + [step];
    }
  }

  class Limiter {
    const window: int
    var buckets: map<Key, Bucket>

    constructor (window: int)
      ensures this.window == window && buckets == map[]
    {
      this.window := window;
      buckets := map[];
    }

    method Consume(key: Key, limit: nat, now: int) returns (delay: nat)
      modifies this`buckets
      ensures buckets == Apply(old(buckets), window, Attempt(key, limit, now))
      ensures delay == Delay(Row(old(buckets), key), limit, window, now)
    {
      if key !in buckets || buckets[key].started <= now - window * SECOND {
        buckets := buckets[key := Bucket(now, 1, now)];
      } else {
        buckets := buckets[key := Bucket(buckets[key].started, buckets[key].attempts + 1, now)];
      }
      if buckets[key].attempts <= limit { return 0; }
      var wait := Ceiling(buckets[key].started + window * SECOND - now);
      delay := if wait < 1 then 1 else wait;
    }

    /** Purge, then count the attempt in every bucket, whatever the earlier ones said. */
    method Preflight(checks: seq<Check>, now: int) returns (retryAfter: nat)
      modifies this`buckets
      ensures buckets == After(old(buckets), window, PreflightSteps(checks, now))
      ensures retryAfter == Largest(Delays(old(buckets), window, PreflightSteps(checks, now)))
    {
      ghost var steps := PreflightSteps(checks, now);
      buckets := Purged(buckets, window, now);
      retryAfter := 0;
      assert steps[..1] == [] + [Purge(now)];
      AfterSnoc(old(buckets), window, [], Purge(now));
      for k := 0 to |checks|
        invariant buckets == After(old(buckets), window, steps[..k + 1])
        invariant retryAfter == Largest(Delays(old(buckets), window, steps[..k + 1]))
      {
        assert steps[..k + 2] == steps[..k + 1] + [steps[k + 1]];
        AfterSnoc(old(buckets), window, steps[..k + 1], steps[k + 1]);
        ghost var delays := Delays(old(buckets), window, steps[..k + 1]);
        var delay := Consume(checks[k].key, checks[k].limit, now);
        assert (delays + [delay])[..|delays|] == delays;
        retryAfter := if delay > retryAfter then delay else retryAfter;
      }
      assert steps[..|checks| + 1] == steps;
    }
  }

  lemma {:induction false} LargestIsLargest(delays: seq<nat>)
    ensures forall i :: 0 <= i < |delays| ==> delays[i] <= Largest(delays)
    ensures delays != [] ==> Largest(delays) in delays
    ensures Largest(delays) == 0 <==> forall i :: 0 <= i < |delays| ==> delays[i] == 0
  {
    if delays != [] {
      var rest := delays[..|delays| - 1];
      LargestIsLargest(rest);
      assert forall i :: 0 <= i < |rest| ==> delays[i] == rest[i];
      if rest != [] && Largest(delays) == Largest(rest) { assert Largest(rest) in rest; }
    }
  }

  // ----- purging is invisible

  function WithoutPurges(steps: seq<Step>): seq<Step> {
    if steps == [] then []
    else (if steps[0].Purge? then [] else [steps[0]]) + WithoutPurges(steps[1..])
  }

  /** `lean` is `full` without some buckets whose window has ended. */
  ghost predicate Trimmed(lean: map<Key, Bucket>, full: map<Key, Bucket>, window: int, time: int) {
    && (forall k <- lean :: k in full && lean[k] == full[k])
    && (forall k <- full :: k in lean || full[k].started <= time - window * SECOND)
  }

  lemma TrimmedStep(lean: map<Key, Bucket>, full: map<Key, Bucket>, window: int, time: int, step: Step)
    requires window >= 1 && Trimmed(lean, full, window, time) && time <= step.now && Past(full, time)
    ensures step.Purge? ==> Trimmed(Apply(lean, window, step), full, window, step.now) && Past(full, step.now)
    ensures step.Attempt? ==>
              && Trimmed(Apply(lean, window, step), Apply(full, window, step), window, step.now)
              && Past(Apply(full, window, step), step.now)
              && Delay(Row(lean, step.key), step.limit, window, step.now)
                  == Delay(Row(full, step.key), step.limit, window, step.now)
  {
  }

  lemma {:induction false} PurgesAreInvisible(lean: map<Key, Bucket>, full: map<Key, Bucket>, window: int, time: int,
                                              steps: seq<Step>)
    requires window >= 1 && Trimmed(lean, full, window, time) && Past(full, time) && Ordered(time, steps)
    ensures Delays(lean, window, steps) == Delays(full, window, WithoutPurges(steps))
    decreases |steps|
  {
    if steps != [] {
      var step := steps[0];
      TrimmedStep(lean, full, window, time, step);
      if step.Purge? {
        PurgesAreInvisible(Apply(lean, window, step), full, window, step.now, steps[1..]);
        assert [] + WithoutPurges(steps[1..]) == WithoutPurges(steps[1..]);
      } else {
        PurgesAreInvisible(Apply(lean, window, step), Apply(full, window, step), window, step.now, steps[1..]);
        assert ([step] + WithoutPurges(steps[1..]))[1..] == WithoutPurges(steps[1..]);
      }
    }
  }

  /** Purging stale buckets never changes a decision or a delay, over any run from any past. */
  lemma PurgingNeverChangesADelay(buckets: map<Key, Bucket>, window: int, time: int, steps: seq<Step>)
    requires window >= 1 && Past(buckets, time) && Ordered(time, steps)
    ensures Delays(buckets, window, steps) == Delays(buckets, window, WithoutPurges(steps))
  {
    PurgesAreInvisible(buckets, buckets, window, time, steps);
  }

  // ----- how many attempts one bucket admits

  /** Attempts on `key` admitted at times from `from` to `to`, both included. */
  function Admitted(buckets: map<Key, Bucket>, window: int, steps: seq<Step>, key: Key, from: int, to: int): nat
    decreases |steps|
  {
    if steps == [] then 0
    else
      var rest := Admitted(Apply(buckets, window, steps[0]), window, steps[1..], key, from, to);
      if steps[0].Attempt? && steps[0].key == key && from <= steps[0].now <= to
         && Delay(Row(buckets, key), steps[0].limit, window, steps[0].now) == 0
      then rest + 1 else rest
  }

  predicate LimitIs(steps: seq<Step>, key: Key, limit: nat) {
    forall s <- steps :: s.Attempt? && s.key == key ==> s.limit == limit
  }

  /** What the bucket can still admit in the interval: its open window and at most one more. */
  function Budget(row: Option<Bucket>, window: int, limit: nat, from: int): nat {
    if row.None? || row.value.started <= from - window * SECOND then 2 * limit
    else
      var left := if row.value.attempts < limit then limit - row.value.attempts else 0;
      if row.value.started <= from then left + limit else left
  }

  lemma {:induction false} NothingAdmittedLater(buckets: map<Key, Bucket>, window: int, steps: seq<Step>, key: Key,
                                                from: int, to: int, time: int)
    requires to < time && Ordered(time, steps)
    ensures Admitted(buckets, window, steps, key, from, to) == 0
    decreases |steps|
  {
    if steps != [] {
      NothingAdmittedLater(Apply(buckets, window, steps[0]), window, steps[1..], key, from, to, steps[0].now);
    }
  }

  lemma AttemptSpendsBudget(row: Option<Bucket>, window: int, limit: nat, from: int, now: int)
    requires window >= 1 && now <= from + window * SECOND
    ensures Budget(Some(Counted(row, window, now)), window, limit, from) +
            (if from <= now && Delay(row, limit, window, now) == 0 then 1 else 0) <= Budget(row, window, limit, from)
  {
  }

  lemma {:induction false} AdmittedWithinBudget(buckets: map<Key, Bucket>, window: int, steps: seq<Step>, key: Key,
                                                limit: nat, from: int, time: int)
    requires window >= 1 && Past(buckets, time) && Ordered(time, steps) && LimitIs(steps, key, limit)
    ensures Admitted(buckets, window, steps, key, from, from + window * SECOND)
            <= Budget(Row(buckets, key), window, limit, from)
    decreases |steps|
  {
    if steps != [] {
      var step, to := steps[0], from + window * SECOND;
      var next := Apply(buckets, window, step);
      if step.now > to {
        NothingAdmittedLater(buckets, window, steps, key, from, to, step.now);
      } else {
        AdmittedWithinBudget(next, window, steps[1..], key, limit, from, step.now);
        AttemptSpendsBudget(Row(buckets, key), window, limit, from, step.now);
      }
    }
  }

  /** From any past, and under any purging and any attempts on other buckets, a bucket admits at most twice
      its limit in an interval as long as the window, both ends included. */
  lemma AtMostTwiceTheLimit(buckets: map<Key, Bucket>, window: int, steps: seq<Step>, key: Key, limit: nat, from: int,
                            time: int)
    requires window >= 1 && Past(buckets, time) && Ordered(time, steps) && LimitIs(steps, key, limit)
    ensures Admitted(buckets, window, steps, key, from, from + window * SECOND) <= 2 * limit
  {
    AdmittedWithinBudget(buckets, window, steps, key, limit, from, time);
  }

  function Burst(key: Key, limit: nat, now: int, count: nat): seq<Step> {
    if count == 0 then [] else [Attempt(key, limit, now)] + Burst(key, limit, now, count - 1)
  }

  lemma {:induction false} BurstIsAdmitted(buckets: map<Key, Bucket>, window: int, key: Key, limit: nat, now: int,
                                           count: nat,
                                           rest: seq<Step>, from: int, to: int)
    requires window >= 1 && from <= now <= to && key in buckets && buckets[key].attempts + count <= limit
    requires buckets[key].started == now
    ensures Admitted(buckets, window, Burst(key, limit, now, count) + rest, key, from, to) ==
            count + Admitted(buckets[key := Bucket(now, buckets[key].attempts + count,
                                                   if count > 0 then now else buckets[key].updated)],
                             window, rest, key, from, to)
    decreases count
  {
    if count == 0 {
      assert Burst(key, limit, now, 0) + rest == rest;
      assert buckets[key := Bucket(now, buckets[key].attempts, buckets[key].updated)] == buckets;
    } else {
      var steps := Burst(key, limit, now, count) + rest;
      assert steps[0] == Attempt(key, limit, now) && steps[1..] == Burst(key, limit, now, count - 1) + rest;
      var next := Apply(buckets, window, steps[0]);
      BurstIsAdmitted(next, window, key, limit, now, count - 1, rest, from, to);
      assert next[key := Bucket(now, next[key].attempts + (count - 1), now)] ==
             buckets[key := Bucket(now, buckets[key].attempts + count, now)];
    }
  }

  lemma FirstBurst(buckets: map<Key, Bucket>, window: int, key: Key, limit: nat, now: int, rest: seq<Step>, from: int,
                   to: int)
    requires window >= 1 && limit >= 1 && from <= now <= to
    requires key in buckets ==> buckets[key].started <= now - window * SECOND
    ensures Admitted(buckets, window, Burst(key, limit, now, limit) + rest, key, from, to) ==
            limit + Admitted(buckets[key := Bucket(now, limit, now)], window, rest, key, from, to)
  {
    var steps := Burst(key, limit, now, limit) + rest;
    assert steps[0] == Attempt(key, limit, now) && steps[1..] == Burst(key, limit, now, limit - 1) + rest;
    var next := Apply(buckets, window, steps[0]);
    BurstIsAdmitted(next, window, key, limit, now, limit - 1, rest, from, to);
    assert next[key := Bucket(now, limit, now)] == buckets[key := Bucket(now, limit, now)];
  }

  /** The bound is reached: a full burst when a window opens and another when it ends. */
  lemma TwiceTheLimitIsReached(window: int, key: Key, limit: nat)
    requires window >= 1 && limit >= 1
    ensures var steps := Burst(key, limit, 0, limit) + Burst(key, limit, window * SECOND, limit);
            Admitted(map[], window, steps, key, 0, window * SECOND) == 2 * limit
  {
    var second := Burst(key, limit, window * SECOND, limit);
    FirstBurst(map[], window, key, limit, 0, second, 0, window * SECOND);
    var between := map[key := Bucket(0, limit, 0)];
    assert map[][key := Bucket(0, limit, 0)] == between;
    assert second + [] == second;
    FirstBurst(between, window, key, limit, window * SECOND, [], 0, window * SECOND);
  }

  // ----- the delay is honoured

  lemma {:induction false} Untouched(buckets: map<Key, Bucket>, window: int, steps: seq<Step>, key: Key, time: int)
    requires key in buckets && Ordered(time, steps) && forall s <- steps :: s.Attempt? ==> s.key != key
    ensures var row := Row(After(buckets, window, steps), key);
            || row == Some(buckets[key])
            || (row.None? && steps != [] && buckets[key].updated < steps[|steps| - 1].now - window * 2 * SECOND)
    decreases |steps|
  {
    if steps != [] {
      var next := Apply(buckets, window, steps[0]);
      if key in next {
        Untouched(next, window, steps[1..], key, steps[0].now);
      } else {
        StaysAbsent(next, window, steps[1..], key);
        OrderedLast(steps, time);
      }
    }
  }

  lemma {:induction false} StaysAbsent(buckets: map<Key, Bucket>, window: int, steps: seq<Step>, key: Key)
    requires key !in buckets && forall s <- steps :: s.Attempt? ==> s.key != key
    ensures key !in After(buckets, window, steps)
    decreases |steps|
  {
    if steps != [] { StaysAbsent(Apply(buckets, window, steps[0]), window, steps[1..], key); }
  }

  lemma {:induction false} OrderedLast(steps: seq<Step>, time: int)
    requires steps != [] && Ordered(time, steps)
    ensures time <= steps[0].now <= steps[|steps| - 1].now
    decreases |steps|
  {
    if |steps| > 1 { OrderedLast(steps[1..], steps[0].now); }
  }

  /** A refused attempt's delay is exact to the second: with no attempt on that bucket in between, a later
      attempt after the delay is admitted, and one a second or more before its end is refused. */
  lemma DelayIsExact(buckets: map<Key, Bucket>, window: int, key: Key, limit: nat, now: int, between: seq<Step>,
                     later: int)
    requires window >= 1 && limit >= 1 && Past(buckets, now)
    requires Delay(Row(buckets, key), limit, window, now) > 0
    requires Ordered(now, between + [Attempt(key, limit, later)])
    requires forall s <- between :: s.Attempt? ==> s.key != key
    ensures var delay := Delay(Row(buckets, key), limit, window, now);
            var row := Row(After(Apply(buckets, window, Attempt(key, limit, now)), window, between), key);
            && (later >= now + delay * SECOND ==> Delay(row, limit, window, later) == 0)
            && (later <= now + (delay - 1) * SECOND ==> Delay(row, limit, window, later) > 0)
  {
    var first := Apply(buckets, window, Attempt(key, limit, now));
    OrderedPrefix(between, Attempt(key, limit, later), now);
    Untouched(first, window, between, key, now);
  }

  lemma {:induction false} OrderedPrefix(steps: seq<Step>, last: Step, time: int)
    requires Ordered(time, steps + [last])
    ensures Ordered(time, steps) && time <= last.now && (steps != [] ==> steps[|steps| - 1].now <= last.now)
    decreases |steps|
  {
    if steps != [] {
      assert (steps + [last])[1..] == steps[1..] + [last];
      OrderedPrefix(steps[1..], last, steps[0].now);
    }
  }

  // ----- how attempts add up

  /** The times of the attempts on one bucket, in order. */
  function Times(steps: seq<Step>, key: Key): seq<int> {
    if steps == [] then []
    else
      var last := steps[|steps| - 1];
      Times(steps[..|steps| - 1], key) + if last.Attempt? && last.key == key then [last.now] else []
  }

  /** The attempt that opened the window of the i-th: the first one at or after the end of the window before. */
  function Opener(times: seq<int>, window: int, i: nat): (o: nat)
    requires i < |times|
    ensures o <= i
  {
    if i == 0 then 0
    else
      var o := Opener(times, window, i - 1);
      if times[i] - times[o] >= window * SECOND then i else o
  }

  lemma {:induction false} OpenerOfPrefix(times: seq<int>, now: int, window: int, i: nat)
    requires i < |times|
    ensures Opener(times + [now], window, i) == Opener(times, window, i)
  {
    if i > 0 { OpenerOfPrefix(times, now, window, i - 1); }
  }

  /** The bucket counts the attempts of the last window; it may be missing once that window has ended. */
  ghost predicate CountsWindow(row: Option<Bucket>, times: seq<int>, window: int, time: int) {
    if times == [] then row.None?
    else
      var n, o := |times|, Opener(times, window, |times| - 1);
      && times[o] <= times[n - 1] <= time
      && (row == Some(Bucket(times[o], n - o, times[n - 1])) || (row.None? && times[o] <= time - window * SECOND))
  }

  lemma AttemptCountsWindow(row: Option<Bucket>, times: seq<int>, window: int, time: int, now: int)
    requires window >= 1 && CountsWindow(row, times, window, time) && time <= now
    ensures CountsWindow(Some(Counted(row, window, now)), times + [now], window, now)
    ensures Counted(row, window, now).attempts == |times| - Opener(times + [now], window, |times|) + 1
  {
    if times != [] {
      var all, o := times + [now], Opener(times, window, |times| - 1);
      OpenerOfPrefix(times, now, window, |times| - 1);
      assert all[o] == times[o] && all[|times|] == now;
      assert Opener(all, window, |times|) == if now - times[o] >= window * SECOND then |times| else o;
    }
  }

  lemma StepCountsWindow(buckets: map<Key, Bucket>, window: int, step: Step, key: Key, times: seq<int>, time: int)
    requires window >= 1 && CountsWindow(Row(buckets, key), times, window, time) && time <= step.now
    ensures CountsWindow(Row(Apply(buckets, window, step), key),
                         times + (if step.Attempt? && step.key == key then [step.now] else []), window, step.now)
  {
    if step.Attempt? && step.key == key {
      AttemptCountsWindow(Row(buckets, key), times, window, time, step.now);
    } else {
      assert times + [] == times;
    }
  }

  lemma LaterCountsWindow(row: Option<Bucket>, times: seq<int>, window: int, time: int, later: int)
    requires CountsWindow(row, times, window, time) && time <= later
    ensures CountsWindow(row, times, window, later)
  {
  }

  lemma {:induction false} RunCountsWindow(window: int, steps: seq<Step>, key: Key, time: int, next: int)
    requires window >= 1 && Ordered(time, steps) && time <= next && (steps != [] ==> steps[|steps| - 1].now <= next)
    ensures CountsWindow(Row(After(map[], window, steps), key), Times(steps, key), window, next)
    decreases |steps|
  {
    if steps != [] {
      var before, step := steps[..|steps| - 1], steps[|steps| - 1];
      assert before + [step] == steps;
      OrderedPrefix(before, step, time);
      RunCountsWindow(window, before, key, time, step.now);
      var times := Times(before, key) + if step.Attempt? && step.key == key then [step.now] else [];
      assert times == Times(steps, key);
      AfterSnoc(map[], window, before, step);
      var buckets := After(map[], window, before);
      StepCountsWindow(buckets, window, step, key, Times(before, key), step.now);
      LaterCountsWindow(Row(Apply(buckets, window, step), key), times, window, step.now, next);
    }
  }

  /** Over every run of attempts and purges with nondecreasing times: an attempt is admitted if and only if fewer
      than `limit` attempts on its bucket, admitted or not, were made before it in its window. */
  lemma AdmittedExactlyBelowLimit(window: int, steps: seq<Step>, key: Key, limit: nat, now: int, time: int)
    requires window >= 1 && Ordered(time, steps + [Attempt(key, limit, now)])
    ensures var times := Times(steps, key) + [now];
            Delay(Row(After(map[], window, steps), key), limit, window, now) == 0 <==>
            |times| - 1 - Opener(times, window, |times| - 1) < limit
  {
    OrderedPrefix(steps, Attempt(key, limit, now), time);
    RunCountsWindow(window, steps, key, time, now);
    AttemptCountsWindow(Row(After(map[], window, steps), key), Times(steps, key), window, now, now);
  }

  /** A purge drops exactly the buckets untouched for more than two windows, and changes no other. */
  lemma PurgeDropsExactlyStale(buckets: map<Key, Bucket>, window: int, now: int, key: Key)
    ensures Row(Purged(buckets, window, now), key) ==
            if key in buckets && now - buckets[key].updated > 2 * window * 1_000_000 then None else Row(buckets, key)
  {
  }
}
