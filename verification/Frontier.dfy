/** The frontier decision on its own: how it is computed, exactly when it keeps a stream healthy,
    and exactly which XACK + XDEL replies it is reached through. */
module Frontier {
  import opened Options
  import opened Markers
  import opened World
  import opened Delivery
  import Safety = DeliverySafety

  /** Computes the newly finalized identifiers and their maximum, then decides. */
  method AdvanceFrontier(mark: Watermark, finalized: set<Id>, head: Id, entriesRead: nat) returns (next: Watermark)
    ensures next == FrontierUpdate(mark, finalized, head, entriesRead)
  {
    if !mark.healthy {
      return mark;
    }
    var rest, news, top := finalized, {}, 0;
    while rest != {}
      invariant rest <= finalized
      invariant news == NewlyFinalized(finalized - rest, mark.contiguous)
      invariant (news == {} && top == 0) || top in news
      invariant forall id <- news :: id <= top
      decreases rest
    {
      var id :| id in rest;
      rest := rest - {id};
      if id > mark.contiguous {
        news := news + {id};
        top := Max(top, id);
      }
    }
    assert finalized - rest == finalized;
    var idempotent := head == mark.contiguous && entriesRead == mark.entriesRead && news == {};
    var exact := news != {} && head > mark.contiguous && head == top && entriesRead - mark.entriesRead == |news|;
    if head < mark.contiguous || entriesRead < mark.entriesRead || !(idempotent || exact) {
      next := mark.(healthy := false);
    } else if exact {
      next := Watermark(head, entriesRead, true);
    } else {
      next := mark;
    }
  }

  /** A true healthy mark stays healthy if and only if the head has not moved back and this process
      finalized exactly the deliveries between the old frontier and the head; then it moves to the head. */
  lemma HealthyExactlyWhenNothingSkipped(w: World, mark: Watermark, finalized: set<Id>, head: Id, read: nat)
    requires WorldInv(w) && Exact(w) && mark.healthy && FrontierHolds(w, mark)
    requires forall id <- finalized :: id in w.delivered
    requires head <= w.lastDelivered && (head == 0 || head in w.delivered)
    requires read == |UpTo(w.delivered, head)|
    ensures var next := FrontierUpdate(mark, finalized, head, read);
            && (next.healthy <==>
                && head >= mark.contiguous
                && NewlyFinalized(finalized, mark.contiguous)
                   == UpTo(w.delivered, head) - UpTo(w.delivered, mark.contiguous))
            && (next.healthy ==> next == Watermark(head, read, true))
  {
    var news := NewlyFinalized(finalized, mark.contiguous);
    var between := UpTo(w.delivered, head) - UpTo(w.delivered, mark.contiguous);
    if ExactAdvance(mark, news, head, read) {
      Safety.AdvanceSkipsNothing(w, mark, finalized, head, read);
    }
    if head >= mark.contiguous {
      Safety.UpToSplits(w.delivered, mark.contiguous, head);
      if head > mark.contiguous && news == between {
        assert head in between;
        assert forall id <- news :: id <= head;
      }
    }
  }

  // ----- the reply of XACK + XDEL

  ghost predicate Distinct(ids: seq<Id>) {
    forall i, j :: 0 <= i < j < |ids| ==> ids[i] != ids[j]
  }

  lemma {:induction false} DistinctSize(ids: seq<Id>)
    requires Distinct(ids)
    ensures |Ids(ids)| == |ids|
  {
    if ids != [] {
      DistinctSize(ids[1..]);
      assert Ids(ids) == {ids[0]} + Ids(ids[1..]);
      assert ids[0] !in ids[1..];
    }
  }

  /** The durable queue never holds an identifier twice. */
  lemma {:induction false} QueueStaysDistinct(queue: seq<Id>, ids: seq<Id>)
    requires Distinct(queue)
    ensures Distinct(EnqueueAll(queue, ids))
    decreases |ids|
  {
    if ids != [] {
      QueueStaysDistinct(Enqueue(queue, ids[0]), ids[1..]);
    }
  }

  /** The reply is known, and all of the batch was pending and present, or none of it was and an earlier
      attempt was uncertain. */
  predicate ReplyAccepted(w: World, f: Finalizer, ids: seq<Id>, outcome: Outcome) {
    && outcome.Committed?
    && (|| (forall id <- ids :: id in w.pending && id in w.entries)
        || (f.uncertain && forall id <- ids :: id !in w.pending && id !in w.entries))
  }

  /** For a batch without repetitions the finalization proceeds exactly when the reply is accepted, and then
      the batch joins what was finalized before; without a reply the attempt is uncertain; a known reply
      that is not accepted changes nothing remembered. */
  lemma ExecuteAcceptsExactBatch(w: World, f: Finalizer, ids: seq<Id>, outcome: Outcome)
    requires Distinct(ids)
    ensures AfterExecute(w, f, ids, outcome) ==
            if ReplyAccepted(w, f, ids, outcome) then Finalizer(true, f.finalized + Ids(ids), Executed(ids))
            else Finalizer(f.uncertain || !outcome.Committed?, f.finalized, NotFinalizing)
  {
    var all := Ids(ids);
    DistinctSize(ids);
    CommonAllOrNone(all, w.pending);
    CommonAllOrNone(all, w.entries);
    assert (forall id <- ids :: id in w.pending && id in w.entries) <==> all <= w.pending && all <= w.entries;
    assert (forall id <- ids :: id !in w.pending && id !in w.entries) <==> all !! w.pending && all !! w.entries;
  }

  /** How many elements two sets share says whether they share all or none. */
  lemma CommonAllOrNone(a: set<Id>, b: set<Id>)
    ensures |a * b| == |a| <==> a <= b
    ensures |a * b| == 0 <==> a !! b
  {
    if |a * b| == |a| { Safety.SubsetOfSameSize(a * b, a); }
    if a <= b { assert a * b == a; }
    if |a * b| == 0 {
      forall x | x in a ensures x !in b {
        assert x in b ==> x in a * b;
      }
    }
    if a !! b { assert a * b == {}; }
  }
}
