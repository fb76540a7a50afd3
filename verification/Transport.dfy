/** One delivery attempt over HTTP: classification of responses, the bounded retry loop, and what
    cancelling retries does to it. */
module Transport {
  import opened Options
  import Batches

  /** The result of one POST. `retryAfter` is the delay-seconds form of Retry-After (section 10.2.3
      of RFC 9110), when present and readable. */
  datatype Response =
    | Unencodable
    | NetworkError
    | Status(code: int, retryAfter: Option<real>)

  const MAX_RETRY_AFTER: real := 60.0

  predicate Success(code: int) {
    200 <= code < 300
  }

  predicate RejectsPayload(code: int) {
    code == 400 || code == 413 || code == 422
  }

  predicate RetryableStatus(code: int) {
    code == 408 || code == 425 || code == 429 || 500 <= code < 600
  }

  /** What a response settles at once; None means that the request may be tried again. */
  function Settles(r: Response): Option<Batches.Outcome> {
    match r {
      case Unencodable => Some(Batches.PermanentRejection)
      case NetworkError => None
      case Status(code, _) =>
        if Success(code) then Some(Batches.Accepted)
        else if RejectsPayload(code) then Some(Batches.PayloadRejected)
        else if !RetryableStatus(code) then Some(Batches.PermanentRejection)
        else None
    }
  }

  /** A rate limit that names a usable delay. */
  predicate NamesDelay(r: Response) {
    r.Status? && r.code == 429 && r.retryAfter.Some? && r.retryAfter.value > 0.0
  }

  function Capped(seconds: real): real {
    if seconds < MAX_RETRY_AFTER then seconds else MAX_RETRY_AFTER
  }

  /** The pause between an attempt and the next: what a rate limit names, or the schedule's entry. */
  function Pause(backoff: seq<real>, r: Response, attempt: nat): real
    requires attempt < |backoff|
  {
    if NamesDelay(r) then Capped(r.retryAfter.value) else backoff[attempt]
  }

  /** Responses by attempt, and the moment retries are cancelled: `cancelled(n)` is observed at the
      n-th check and, once true, stays true. */
  datatype Network = Network(responses: nat -> Response, cancelled: nat -> bool)

  function ResponseTo(net: Network, attempt: nat): Response {
    net.responses(attempt)
  }

  predicate CancelledAt(net: Network, check: nat) {
    net.cancelled(check)
  }

  ghost predicate CancellationIsFinal(net: Network) {
    forall a: nat, b: nat :: a <= b && CancelledAt(net, a) ==> CancelledAt(net, b)
  }

  // ----- one POST with its retries, as a function

  /** The client's own state: checks of the cancellation flag so far, and the seconds slept, in order. */
  datatype Link = Link(checks: nat, slept: seq<real>)

  datatype Waited = Waited(ok: bool, link: Link)

  function Checked(link: Link, n: nat): Link {
    link.(checks := link.checks + n)
  }

  /** Waits before a retry; not ok when cancelled before or during the wait. The default wait ends when
      retries are cancelled; an injected sleep always runs to its end. */
  function Wait(net: Network, interruptible: bool, seconds: real, link: Link): Waited {
    var full := Link(link.checks + 2, link.slept + [seconds]);
    if CancelledAt(net, link.checks) then Waited(false, Checked(link, 1))
    else if CancelledAt(net, link.checks + 1) then Waited(false, if interruptible then Checked(link, 2) else full)
    else Waited(true, full)
  }

  /** Honours Retry-After on 429, capped; not ok when there is nothing to honour or it was cancelled. */
  function Honor(net: Network, interruptible: bool, r: Response, more: bool, link: Link): Waited {
    if NamesDelay(r) && more then Wait(net, interruptible, Capped(r.retryAfter.value), link) else Waited(false, link)
  }

  /** What happens between an unsettled response and the next attempt, if the schedule has one. */
  function Between(net: Network, interruptible: bool, backoff: seq<real>, attempt: nat, link: Link): Waited {
    var r := ResponseTo(net, attempt);
    if r.Status? && CancelledAt(net, link.checks) then Waited(false, Checked(link, 1))
    else
      var asked := Honor(net, interruptible, r, attempt < |backoff|, if r.Status? then Checked(link, 1) else link);
      if asked.ok || attempt >= |backoff| then asked
      else Wait(net, interruptible, backoff[attempt], asked.link)
  }

  datatype Posted = Posted(outcome: Batches.Outcome, requests: nat, link: Link)

  /** The attempts from `attempt` on; `requests` counts those before. */
  function Post(net: Network, interruptible: bool, backoff: seq<real>, attempt: nat, link: Link): Posted
    requires attempt <= |backoff|
    decreases |backoff| - attempt
  {
    var settled := Settles(ResponseTo(net, attempt));
    if settled.Some? then Posted(settled.value, attempt + 1, link)
    else
      var pause := Between(net, interruptible, backoff, attempt, link);
      if !pause.ok || attempt == |backoff| then Posted(Batches.Retryable, attempt + 1, pause.link)
      else Post(net, interruptible, backoff, attempt + 1, pause.link)
  }

  /** At most one request more than the schedule has entries. Anything but a retryable outcome is what the
      last response says, and every earlier response allowed a retry. */
  lemma {:induction false} PostIsBounded(net: Network, interruptible: bool, backoff: seq<real>, attempt: nat,
                                         link: Link)
    requires attempt <= |backoff|
    ensures var p := Post(net, interruptible, backoff, attempt, link);
            && attempt + 1 <= p.requests <= |backoff| + 1
            && (forall i: nat :: attempt <= i < p.requests - 1 ==> Settles(ResponseTo(net, i)).None?)
            && match Settles(ResponseTo(net, p.requests - 1)) {
                 case Some(settled) => p.outcome == settled
                 case None => p.outcome == Batches.Retryable
               }
    decreases |backoff| - attempt
  {
    if Settles(ResponseTo(net, attempt)).None? {
      var pause := Between(net, interruptible, backoff, attempt, link);
      if pause.ok && attempt < |backoff| {
        PostIsBounded(net, interruptible, backoff, attempt + 1, pause.link);
      }
    }
  }

  /** Once retries are cancelled, exactly one request is sent and nothing is slept. */
  lemma CancelledPostsOnce(net: Network, interruptible: bool, backoff: seq<real>, link: Link)
    requires CancellationIsFinal(net) && CancelledAt(net, link.checks)
    ensures Post(net, interruptible, backoff, 0, link).requests == 1
    ensures Post(net, interruptible, backoff, 0, link).link.slept == link.slept
  {
    assert CancelledAt(net, link.checks + 1);
  }

  /** Between two attempts there is exactly one pause, and a pause that is not followed by an attempt
      happens only with an injected sleep. */
  lemma BetweenPausesOnce(net: Network, interruptible: bool, backoff: seq<real>, attempt: nat, link: Link)
    requires CancellationIsFinal(net) && attempt < |backoff|
    ensures var pause := Between(net, interruptible, backoff, attempt, link);
            var scheduled := link.slept + [Pause(backoff, ResponseTo(net, attempt), attempt)];
            && (pause.ok ==> pause.link.slept == scheduled)
            && (!pause.ok ==> pause.link.slept == link.slept || (!interruptible && pause.link.slept == scheduled))
  {
    var r := ResponseTo(net, attempt);
    var first := if r.Status? then link.checks + 1 else link.checks;
    if NamesDelay(r) && CancelledAt(net, first) { assert CancelledAt(net, first + 1); }
    if NamesDelay(r) && CancelledAt(net, first + 1) { assert CancelledAt(net, first + 2); }
  }

  /** The pauses from `attempt` on, before the next `n` attempts. */
  function Pauses(backoff: seq<real>, net: Network, attempt: nat, n: nat): seq<real>
    requires attempt + n <= |backoff|
  {
    seq(n, i requires 0 <= i < n => Pause(backoff, ResponseTo(net, attempt + i), attempt + i))
  }

  /** One pause before each retry; with an injected sleep a last one may have run before cancellation was
      seen. */
  ghost predicate Scheduled(before: seq<real>, after: seq<real>, net: Network, interruptible: bool, backoff: seq<real>,
                            attempt: nat, requests: nat) {
    && attempt < requests <= |backoff| + 1
    && (|| after == before + Pauses(backoff, net, attempt, requests - 1 - attempt)
        || (!interruptible && requests <= |backoff|
            && after == before + Pauses(backoff, net, attempt, requests - attempt)))
  }

  lemma PausesCons(before: seq<real>, backoff: seq<real>, net: Network, attempt: nat, n: nat)
    requires attempt + n < |backoff|
    ensures before + Pauses(backoff, net, attempt, n + 1) ==
            before + [Pause(backoff, ResponseTo(net, attempt), attempt)] + Pauses(backoff, net, attempt + 1, n)
  {
    assert Pauses(backoff, net, attempt, n + 1) ==
           [Pause(backoff, ResponseTo(net, attempt), attempt)] + Pauses(backoff, net, attempt + 1, n);
  }

  lemma ScheduledCons(before: seq<real>, after: seq<real>, net: Network, interruptible: bool, backoff: seq<real>,
                      attempt: nat, requests: nat)
    requires attempt < |backoff|
    requires Scheduled(before + [Pause(backoff, ResponseTo(net, attempt), attempt)], after, net, interruptible, backoff,
                       attempt + 1, requests)
    ensures Scheduled(before, after, net, interruptible, backoff, attempt, requests)
  {
    PausesCons(before, backoff, net, attempt, requests - 2 - attempt);
    if requests <= |backoff| { PausesCons(before, backoff, net, attempt, requests - 1 - attempt); }
  }

  /** The pauses of a POST are exactly those the responses and the schedule name. */
  lemma {:induction false} PausesAreScheduled(net: Network, interruptible: bool, backoff: seq<real>, attempt: nat,
                                              link: Link)
    requires CancellationIsFinal(net) && attempt <= |backoff|
    ensures var p := Post(net, interruptible, backoff, attempt, link);
            Scheduled(link.slept, p.link.slept, net, interruptible, backoff, attempt, p.requests)
    decreases |backoff| - attempt
  {
    assert Pauses(backoff, net, attempt, 0) == [] && link.slept + [] == link.slept;
    if Settles(ResponseTo(net, attempt)).None? && attempt < |backoff| {
      var pause := Between(net, interruptible, backoff, attempt, link);
      BetweenPausesOnce(net, interruptible, backoff, attempt, link);
      if pause.ok {
        var p := Post(net, interruptible, backoff, attempt + 1, pause.link);
        PausesAreScheduled(net, interruptible, backoff, attempt + 1, pause.link);
        ScheduledCons(link.slept, p.link.slept, net, interruptible, backoff, attempt, p.requests);
      } else {
        assert Pauses(backoff, net, attempt, 1) == [Pause(backoff, ResponseTo(net, attempt), attempt)];
      }
    }
  }

  // ----- what the decisions mean

  /** The status classes: success is 200 to 299; 400, 413 and 422 refuse the payload; 408, 425, 429 and 500 to 599
      may be tried again; every other status refuses for good. */
  lemma StatusClasses(code: int, retryAfter: Option<real>)
    ensures var settled := Settles(Status(code, retryAfter));
            && (settled == Some(Batches.Accepted) <==> 200 <= code <= 299)
            && (settled == Some(Batches.PayloadRejected) <==> code in {400, 413, 422})
            && (settled == None <==> code in {408, 425, 429} || 500 <= code <= 599)
            && settled != Some(Batches.Retryable)
  {
  }

  /** Only a payload that cannot be encoded is refused without an answer; a network error may be tried again. */
  lemma WithoutAnswer()
    ensures Settles(Unencodable) == Some(Batches.PermanentRejection) && Settles(NetworkError) == None
  {
  }

  /** A pause is what a 429 response names, at most 60 seconds, and otherwise the schedule's entry. */
  lemma PauseIsNamedOrScheduled(backoff: seq<real>, code: int, retryAfter: Option<real>, attempt: nat)
    requires attempt < |backoff|
    ensures var pause := Pause(backoff, Status(code, retryAfter), attempt);
            if code == 429 && retryAfter.Some? && retryAfter.value > 0.0
            then pause <= 60.0 && pause <= retryAfter.value && (pause == retryAfter.value || pause == 60.0)
            else pause == backoff[attempt]
    ensures Pause(backoff, NetworkError, attempt) == backoff[attempt]
  {
  }

  /** A POST gives up before its schedule is exhausted only when a response settled it or cancellation was seen. */
  lemma {:induction false} PostStopsOnlyWhenDone(net: Network, interruptible: bool, backoff: seq<real>, attempt: nat,
                                                 link: Link)
    requires attempt <= |backoff|
    ensures var p := Post(net, interruptible, backoff, attempt, link);
            && 1 <= p.requests && link.checks <= p.link.checks
            && (|| p.requests == |backoff| + 1 || Settles(ResponseTo(net, p.requests - 1)).Some?
                || exists c :: link.checks <= c < p.link.checks && CancelledAt(net, c))
    decreases |backoff| - attempt
  {
    if Settles(ResponseTo(net, attempt)).None? {
      var pause := Between(net, interruptible, backoff, attempt, link);
      BetweenStopsForCancellation(net, interruptible, backoff, attempt, link);
      if pause.ok && attempt < |backoff| {
        PostStopsOnlyWhenDone(net, interruptible, backoff, attempt + 1, pause.link);
      }
    }
  }

  lemma BetweenStopsForCancellation(net: Network, interruptible: bool, backoff: seq<real>, attempt: nat, link: Link)
    ensures var pause := Between(net, interruptible, backoff, attempt, link);
            && link.checks <= pause.link.checks
            && (!pause.ok && attempt < |backoff| ==>
                  exists c :: link.checks <= c < pause.link.checks && CancelledAt(net, c))
  {
    var pause := Between(net, interruptible, backoff, attempt, link);
    if !pause.ok && attempt < |backoff| {
      var r := ResponseTo(net, attempt);
      if !(r.Status? && CancelledAt(net, link.checks)) {
        var asked := Honor(net, interruptible, r, true, if r.Status? then Checked(link, 1) else link);
        assert CancelledAt(net, asked.link.checks) || CancelledAt(net, asked.link.checks + 1);
      }
    }
  }

  // ----- the client itself

  class Client {
    const backoff: seq<real>
    /** False when a sleep function was injected in place of the default one. */
    const interruptible: bool
    var checks: nat
    var slept: seq<real>

    function State(): Link
      reads this
    {
      Link(checks, slept)
    }

    constructor (backoff: seq<real>, interruptible: bool)
      ensures this.backoff == backoff && this.interruptible == interruptible && State() == Link(0, [])
    {
      this.backoff, this.interruptible := backoff, interruptible;
      checks, slept := 0, [];
    }

    method Check(net: Network) returns (cancelled: bool)
      modifies this`checks
      ensures cancelled == CancelledAt(net, old(checks)) && checks == old(checks) + 1
    {
      cancelled := CancelledAt(net, checks);
      checks := checks + 1;
    }

    method WaitForRetry(net: Network, seconds: real) returns (ok: bool)
      modifies this
      ensures Waited(ok, State()) == Wait(net, interruptible, seconds, old(State()))
    {
      var cancelled := Check(net);
      if cancelled { return false; }
      if interruptible {
        cancelled := Check(net);
        if !cancelled { slept := slept + [seconds]; }
      } else {
        slept := slept + [seconds];
        cancelled := Check(net);
      }
      ok := !cancelled;
    }

    method HonorRetryAfter(net: Network, r: Response, attempt: nat) returns (handled: bool)
      requires r.Status? && r.code == 429
      modifies this
      ensures Waited(handled, State()) == Honor(net, interruptible, r, attempt < |backoff|, old(State()))
    {
      if r.retryAfter.None? { return false; }
      var seconds := r.retryAfter.value;
      if seconds <= 0.0 || attempt >= |backoff| { return false; }
      handled := WaitForRetry(net, Capped(seconds));
    }

    /** The end of one attempt: honours the response's delay, or else the schedule's. */
    method PauseAfter(net: Network, attempt: nat) returns (ok: bool)
      modifies this
      ensures Waited(ok, State()) == Between(net, interruptible, backoff, attempt, old(State()))
    {
      var r := ResponseTo(net, attempt);
      ok := false;
      if r.Status? {
        var cancelled := Check(net);
        if cancelled { return false; }
        if r.code == 429 { ok := HonorRetryAfter(net, r, attempt); }
      }
      if !ok && attempt < |backoff| {
        ok := WaitForRetry(net, backoff[attempt]);
      }
    }

    /** Posts until a response settles the request or retries run out. At most one request more than the
        schedule has entries is sent; anything but a retryable outcome is what the last response says;
        every earlier response allowed a retry; the pauses are those the responses and the schedule name;
        and once retries are cancelled exactly one request is sent. */
    method PostJson(net: Network) returns (outcome: Batches.Outcome, requests: nat)
      requires CancellationIsFinal(net)
      modifies this
      ensures Posted(outcome, requests, State()) == Post(net, interruptible, backoff, 0, old(State()))
      ensures 1 <= requests <= |backoff| + 1
      ensures forall i: nat :: i < requests - 1 ==> Settles(ResponseTo(net, i)).None?
      ensures match Settles(ResponseTo(net, requests - 1)) {
                case Some(settled) => outcome == settled
                case None => outcome == Batches.Retryable
              }
      ensures Scheduled(old(slept), slept, net, interruptible, backoff, 0, requests)
      ensures CancelledAt(net, old(checks)) ==> requests == 1
    {
      PostIsBounded(net, interruptible, backoff, 0, State());
      PausesAreScheduled(net, interruptible, backoff, 0, State());
      if CancelledAt(net, checks) { CancelledPostsOnce(net, interruptible, backoff, State()); }
      outcome, requests := Attempts(net);
    }

    /** The loop over attempts. */
    method Attempts(net: Network) returns (outcome: Batches.Outcome, requests: nat)
      modifies this
      ensures Posted(outcome, requests, State()) == Post(net, interruptible, backoff, 0, old(State()))
    {
      var attempt := 0;
      while true
        invariant attempt <= |backoff|
        invariant Post(net, interruptible, backoff, attempt, State())
            == Post(net, interruptible, backoff, 0, old(State()))
        decreases |backoff| - attempt
      {
        var settled := Settles(ResponseTo(net, attempt));
        if settled.Some? {
          return settled.value, attempt + 1;
        }
        var retry := PauseAfter(net, attempt);
        if !retry || attempt == |backoff| {
          return Batches.Retryable, attempt + 1;
        }
        attempt := attempt + 1;
      }
    }
  }
}
