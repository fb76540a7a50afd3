/** What a process remembers of its own finalizations is exactly what the replies it received say, over
    every run: nothing acknowledged since its last committed frontier is forgotten, and nothing else is kept. */
module FinalizationHistory {
  import opened Options
  import opened Markers
  import opened World
  import opened Delivery
  import Safety = DeliverySafety
  import Frontier

  /** The identifiers a finalization in progress works on. */
  function Batch(f: Finalization): seq<Id> {
    if f.NotFinalizing? then [] else f.ids
  }

  ghost predicate Remembers(wr: Writer) {
    && Frontier.Distinct(wr.durable) && Frontier.Distinct(Batch(wr.finalizer.phase))
    && wr.finalizer.finalized == wr.history.acknowledged
    && wr.finalizer.uncertain == wr.history.unsettled
  }

  ghost predicate AllRemember(s: State) {
    forall p <- s.writers :: Remembers(s.writers[p])
  }

  lemma {:induction false} WithoutDistinct(queue: seq<Id>, ids: set<Id>)
    requires Frontier.Distinct(queue)
    ensures Frontier.Distinct(Without(queue, ids))
  {
    if queue != [] {
      WithoutDistinct(queue[1..], ids);
      Safety.WithoutMembers(queue[1..], ids);
      assert queue[0] !in queue[1..];
    }
  }

  lemma TakeDistinct(durable: seq<Id>, a: IntakeAction)
    requires Frontier.Distinct(durable)
    ensures Frontier.Distinct(TakeQueue(durable, a))
  {
    match a {
      case EndFlush(stored, _) => Frontier.QueueStaysDistinct(durable, stored);
      case _ =>
    }
  }

  lemma ExecuteRemembers(w: World, f: Finalizer, h: History, outcome: Outcome)
    requires f.phase.Verified? && Frontier.Distinct(f.phase.ids)
    requires f.finalized == h.acknowledged && f.uncertain == h.unsettled
    ensures var f' := AfterExecute(w, f, f.phase.ids, outcome);
            var h' := HistoryNext(w, f, h, Execute(outcome));
            f'.finalized == h'.acknowledged && f'.uncertain == h'.unsettled && Frontier.Distinct(Batch(f'.phase))
  {
    Frontier.ExecuteAcceptsExactBatch(w, f, f.phase.ids, outcome);
  }

  lemma FinalizeRemembers(w: World, wr: Writer, a: FinalizeAction)
    requires Remembers(wr) && CanFinalize(w, wr.finalizer, wr.durable, a)
    ensures Remembers(wr.(finalizer := FinalizeNext(w, wr.finalizer, wr.durable, a),
                          history := HistoryNext(w, wr.finalizer, wr.history, a),
                          durable := FinalizeQueue(wr.finalizer, wr.durable, a)))
  {
    if a.Execute? {
      ExecuteRemembers(w, wr.finalizer, wr.history, a.outcome);
    } else {
      WithoutDistinct(wr.durable, Ids(Batch(wr.finalizer.phase)));
    }
  }

  lemma StepRemembers(s: State, step: Step)
    requires AllRemember(s) && Enabled(s, step)
    ensures AllRemember(Apply(s, step))
  {
    match step {
      case Take(p, a) => TakeDistinct(s.writers[p].durable, a);
      case Finalize(p, a) => FinalizeRemembers(s.world, s.writers[p], a);
      case _ =>
    }
  }

  lemma {:induction false} RunRemembers(s: State, steps: seq<Step>)
    requires AllRemember(s) && Safety.Run(s, steps)
    ensures AllRemember(Safety.After(s, steps))
    decreases |steps|
  {
    if steps != [] {
      StepRemembers(s, steps[0]);
      RunRemembers(Apply(s, steps[0]), steps[1..]);
    }
  }

  /** In every reachable state, what a process counts as finalized is exactly what accepted replies
      acknowledged since its last committed frontier; it treats its finalization as uncertain exactly while an
      attempt may have been applied without completing; and it never queues a delivery twice. */
  lemma FinalizedIsAcknowledged(s: State, steps: seq<Step>, p: nat)
    requires Safety.Init(s) && Safety.Run(s, steps) && p in Safety.After(s, steps).writers
    ensures var wr := Safety.After(s, steps).writers[p];
            && wr.finalizer.finalized == wr.history.acknowledged
            && wr.finalizer.uncertain == wr.history.unsettled
            && Frontier.Distinct(wr.durable)
  {
    RunRemembers(s, steps);
    assert Remembers(Safety.After(s, steps).writers[p]);
  }
}
