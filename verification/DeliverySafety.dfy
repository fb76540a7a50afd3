/** Safety of the delivery protocol over every run: the healthy frontier is sound, nothing is
    lost, trims never cross unread or pending entries, and a marker's entry stays available. */
module DeliverySafety {
  import opened Options
  import opened Markers
  import opened World
  import opened Delivery

  // ----- small facts about the queues

  lemma {:induction false} EnqueueAllMembers(queue: seq<Id>, ids: seq<Id>)
    ensures forall id :: id in EnqueueAll(queue, ids) <==> id in queue || id in ids
    decreases |ids|
  {
    if ids != [] {
      EnqueueAllMembers(Enqueue(queue, ids[0]), ids[1..]);
    }
  }

  lemma {:induction false} WithoutMembers(queue: seq<Id>, ids: set<Id>)
    ensures forall id :: id in Without(queue, ids) <==> id in queue && id !in ids
  {
    if queue != [] {
      WithoutMembers(queue[1..], ids);
    }
  }

  // ----- the counting argument

  lemma UpToSplits(ids: set<Id>, low: Id, high: Id)
    requires low <= high
    ensures |UpTo(ids, high) - UpTo(ids, low)| == |UpTo(ids, high)| - |UpTo(ids, low)|
  {
    assert UpTo(ids, high) == UpTo(ids, low) + (UpTo(ids, high) - UpTo(ids, low));
  }

  lemma SubsetOfSameSize<T>(a: set<T>, b: set<T>)
    requires a <= b && |a| == |b|
    ensures a == b
  {
    if a != b {
      var x :| x in b && x !in a;
      assert a + {x} <= b;
      SubsetSize(a + {x}, b);
      assert false;
    }
  }

  lemma {:induction false} SubsetSize<T>(a: set<T>, b: set<T>)
    requires a <= b
    ensures |a| <= |b|
  {
    assert b == a + (b - a);
  }

  /** When the delivery count and the head account for exactly the finalized identifiers, those are
      all the deliveries beyond the old frontier. */
  lemma AdvanceSkipsNothing(w: World, mark: Watermark, finalized: set<Id>, head: Id, read: nat)
    requires WorldInv(w) && Exact(w) && FrontierHolds(w, mark)
    requires forall id <- finalized :: id in w.delivered
    requires head <= w.lastDelivered && read == |UpTo(w.delivered, head)|
    requires ExactAdvance(mark, NewlyFinalized(finalized, mark.contiguous), head, read)
    ensures NewlyFinalized(finalized, mark.contiguous) == UpTo(w.delivered, head) - UpTo(w.delivered, mark.contiguous)
  {
    UpToSplits(w.delivered, mark.contiguous, head);
    SubsetOfSameSize(NewlyFinalized(finalized, mark.contiguous),
                     UpTo(w.delivered, head) - UpTo(w.delivered, mark.contiguous));
  }

  /** The frontier transaction never writes a healthy mark that is not true. */
  lemma FrontierUpdateIsSound(w: World, finalized: set<Id>, head: Id, read: nat)
    requires WorldInv(w) && w.watermark.Some?
    requires forall id <- finalized :: Final(w, id)
    requires head <= w.lastDelivered && read - |UpTo(w.delivered, head)| == w.entriesRead - |w.delivered|
    ensures var mark' := FrontierUpdate(w.watermark.value, finalized, head, read);
            && (Degraded(w) ==> !mark'.healthy)
            && (mark'.healthy ==> Exact(w) && FrontierHolds(w, mark'))
  {
    var mark := w.watermark.value;
    var news := NewlyFinalized(finalized, mark.contiguous);
    if mark.healthy && ExactAdvance(mark, news, head, read) {
      AdvanceSkipsNothing(w, mark, finalized, head, read);
      forall id | id in w.admitted && id <= head
        ensures id in w.delivered && Gone(w, id) && Clean(w, id)
      {
        if id > mark.contiguous {
          assert id in UpTo(w.delivered, head);
          assert id in news;
          assert Final(w, id);
        }
      }
      assert FrontierHolds(w, Watermark(head, read, true));
    }
  }

  // ----- markers: the tables agree on who owns an identifier

  /** Authority read from the tables is authority for the entry's own token. */
  lemma AuthorizedIsAccounted(w: World, id: Id)
    requires WorldInv(w) && id in w.admitted && w.admitted[id].Marker? && Authorized(w, id)
    ensures PublishedMarker(w, id) || QuarantinedMarker(w, id)
    ensures QuarantinedMarker(w, id) ==> QuarantineOwns(w, id)
  {
    if QuarantineOwns(w, id) {
      var t :| t in w.markers && w.markers[t].state.Quarantined? && w.markers[t].observed == Some(id);
      assert w.dedup[t] == id;
    }
  }

  /** No two boundaries ever observe the same identifier. */
  lemma NeverCollides(w: World, token: Token, observed: Option<Id>)
    requires WorldInv(w)
    requires observed.Some? ==> token in w.dedup && w.dedup[token] == observed.value
    ensures !Collides(w, token, observed)
  {
  }

  lemma GrowsReflexive(w: World)
    ensures Grows(w, w)
  {
  }

  // ----- local knowledge survives whatever the rest of the system does

  lemma IdFactsPersist(w: World, w': World, id: Id)
    requires WorldInv(w) && Grows(w, w')
    ensures Queueable(w, id) ==> Queueable(w', id)
    ensures Ackable(w, id) ==> Ackable(w', id)
    ensures Final(w, id) ==> Final(w', id)
    ensures id in w.delivered && Accounted(w, id) ==> Accounted(w', id)
  {
    if id in w.delivered { EntryFactsPersist(w, w', id); }
  }

  lemma QueuesPersist(w: World, w': World, durable: seq<Id>, finalized: set<Id>)
    requires WorldInv(w) && Grows(w, w') && QueueOk(w, durable) && FinalizedOk(w, finalized)
    ensures QueueOk(w', durable) && FinalizedOk(w', finalized)
  {
    forall id | id in durable ensures Queueable(w', id) { IdFactsPersist(w, w', id); }
    forall id | id in finalized ensures Final(w', id) { IdFactsPersist(w, w', id); }
  }

  lemma PhasePersists(w: World, w': World, f: Finalization)
    requires WorldInv(w) && Grows(w, w') && PhaseHolds(w, f)
    ensures PhaseHolds(w', f)
  {
    match f {
      case NotFinalizing =>
      case Observed(_, _, head, _) => UpToStable(w, w', head);
      case _ => forall id | id in f.ids { IdFactsPersist(w, w', id); }
    }
  }

  lemma PublishingPersists(w: World, w': World, p: Publishing)
    requires Grows(w, w') && PublishingOk(w, p)
    ensures PublishingOk(w', p)
  {
    if p.Publishing? && w'.markers[p.token] != w.markers[p.token] {
      PhaseSurvives(w.markers[p.token], w'.markers[p.token], p.phase);
    }
  }

  lemma WriterPersists(w: World, w': World, wr: Writer)
    requires WorldInv(w) && Grows(w, w') && WriterInv(w, wr)
    ensures WriterInv(w', wr)
  {
    QueuesPersist(w, w', wr.durable, wr.finalizer.finalized);
    PhasePersists(w, w', wr.finalizer.phase);
    PublishingPersists(w, w', wr.publishing);
  }

  // ----- each action keeps the invariant and only grows the stores

  lemma TakeKeepsWorld(w: World, i: Intake, a: IntakeAction)
    requires WorldInv(w) && IntakeOk(w, i) && CanTake(w, i, a)
    ensures WorldInv(TakeWorld(w, i, a)) && Grows(w, TakeWorld(w, i, a))
  {
    match a {
      case Read(id) => DeliverKeeps(w, id);
      case ClaimLost(id) => DropClaimKeeps(w, id);
      case RejectMalformed => DeadLetterKeeps(w, i.inbox[0]);
      case RejectRow(id) => DeadLetterKeeps(w, id);
      case RejectCommitted(id) => DegradeKeeps(w);
      case _ => GrowsReflexive(w);
    }
  }

  lemma TakeKeepsIntake(w: World, i: Intake, a: IntakeAction)
    requires WorldInv(w) && IntakeOk(w, i) && CanTake(w, i, a)
    requires Grows(w, TakeWorld(w, i, a))
    ensures IntakeOk(TakeWorld(w, i, a), TakeIntake(w, i, a))
  {
  }

  lemma TakeKeepsQueue(w: World, i: Intake, durable: seq<Id>, a: IntakeAction)
    requires WorldInv(w) && IntakeOk(w, i) && QueueOk(w, durable) && CanTake(w, i, a)
    requires Grows(w, TakeWorld(w, i, a)) && QueueOk(TakeWorld(w, i, a), durable)
    ensures QueueOk(TakeWorld(w, i, a), TakeQueue(durable, a))
  {
    match a {
      case EndFlush(stored, _) => EnqueueAllMembers(durable, stored);
      case _ =>
    }
  }

  /** Authority read from the tables makes every queued delivery acknowledgeable, after the degrade
      write when one of them is quarantined. */
  lemma AuthorityIsEnough(w: World, durable: seq<Id>)
    requires WorldInv(w) && QueueOk(w, durable) && forall id <- durable :: Authorized(w, id)
    ensures forall id <- durable :: id in w.delivered && Accounted(w, id)
    ensures !NeedsDegrade(w, durable) ==> forall id <- durable :: Ackable(w, id)
  {
    forall id | id in durable
      ensures id in w.delivered && Accounted(w, id) && (NeedsDegrade(w, durable) || Ackable(w, id))
    {
      assert Queueable(w, id);
      if w.admitted[id].Marker? { AuthorizedIsAccounted(w, id); }
    }
  }

  lemma FinalizeKeepsWorld(w: World, f: Finalizer, durable: seq<Id>, a: FinalizeAction)
    requires WorldInv(w) && FinalizedOk(w, f.finalized) && PhaseHolds(w, f.phase) && CanFinalize(w, f, durable, a)
    ensures WorldInv(FinalizeWorld(w, f, durable, a)) && Grows(w, FinalizeWorld(w, f, durable, a))
  {
    GrowsReflexive(w);
    match a {
      case DegradeForQuarantine => DegradeKeeps(w);
      case Execute(outcome) => if !outcome.RolledBack? { AckDeleteKeeps(w, f.phase.ids); }
      case CommitFrontier(outcome) =>
        if !outcome.RolledBack? {
          FrontierUpdateIsSound(w, f.finalized, f.phase.head, f.phase.entriesRead);
          SetWatermarkKeeps(w, FrontierUpdate(w.watermark.value, f.finalized, f.phase.head, f.phase.entriesRead));
        }
      case _ =>
    }
  }

  lemma FinalizeKeepsFinalizer(w: World, f: Finalizer, durable: seq<Id>, a: FinalizeAction)
    requires WorldInv(w) && FinalizedOk(w, f.finalized) && PhaseHolds(w, f.phase) && CanFinalize(w, f, durable, a)
    requires QueueOk(w, durable) && Grows(w, FinalizeWorld(w, f, durable, a))
    ensures var w', f' := FinalizeWorld(w, f, durable, a), FinalizeNext(w, f, durable, a);
            FinalizedOk(w', f'.finalized) && PhaseHolds(w', f'.phase)
  {
    var w' := FinalizeWorld(w, f, durable, a);
    QueuesPersist(w, w', durable, f.finalized);
    match a {
      case ReadAuthority(ids) => AuthorityIsEnough(w, ids);
      case DegradeForQuarantine =>
        forall id | id in f.phase.ids ensures Ackable(w', id) { IdFactsPersist(w, w', id); }
      case Execute(outcome) =>
        if outcome.Committed? {
          forall id | id in f.phase.ids ensures Final(w', id) { IdFactsPersist(w, w', id); }
        }
      case ObserveGroup => assert UpTo(w.delivered, w.lastDelivered) == w.delivered;
      case _ =>
    }
  }

  lemma FinalizeKeepsQueue(w: World, f: Finalizer, durable: seq<Id>, a: FinalizeAction)
    requires QueueOk(w, durable)
    ensures QueueOk(w, FinalizeQueue(f, durable, a))
  {
    if f.phase.Observed? { WithoutMembers(durable, Ids(f.phase.ids)); }
  }

  lemma TrimActionKeeps(w: World, t: Trimming, a: TrimAction)
    requires WorldInv(w) && TrimmingOk(w, t) && CanTrim(w, t, a)
    ensures WorldInv(TrimWorld(w, t, a)) && Grows(w, TrimWorld(w, t, a))
    ensures TrimmingOk(TrimWorld(w, t, a), TrimNext(w, t, a))
  {
    if a.TrimApply? { TrimKeeps(w, t.bound); } else { GrowsReflexive(w); }
  }

  lemma StartActionKeeps(w: World, st: Starting, a: StartAction)
    requires WorldInv(w) && StartingOk(w, st) && CanStart(w, st, a)
    ensures WorldInv(StartWorld(w, st, a)) && Grows(w, StartWorld(w, st, a))
    ensures StartingOk(StartWorld(w, st, a), StartNext(w, st, a))
  {
    GrowsReflexive(w);
    match a {
      case StartCompare => DegradeKeeps(w);
      case StartInsert =>
        if w.watermark.None? {
          assert UpTo(w.delivered, 0) == {};
          SetWatermarkKeeps(w, GenesisMark(st));
        }
      case _ =>
    }
  }

  lemma PublishKeepsWorld(w: World, p: Publishing, a: PublishAction)
    requires WorldInv(w) && PublishingOk(w, p) && CanPublish(w, p, a)
    ensures WorldInv(PublishWorld(w, p, a)) && Grows(w, PublishWorld(w, p, a))
  {
    GrowsReflexive(w);
    match a {
      case PublishScript(added, outcome) =>
        if !outcome.RolledBack? && ScriptAdds(w, p.token, p.phase.snap) { AddMarkerKeeps(w, p.token, added); }
      case CommitMarker(outcome) =>
        NeverCollides(w, p.token, Some(p.phase.id));
        CommitKeeps(w.markers[p.token], p.phase.snap, p.phase.id, outcome);
        SetMarkerKeeps(w, p.token, CommitRow(w.markers[p.token], p.phase.snap, p.phase.id, outcome));
      case RecordMarker(outcome) =>
        NeverCollides(w, p.token, ObservedToRecord(p.phase.snap, p.phase.failure));
        RecordKeeps(w.markers[p.token], p.phase.snap, p.phase.failure, false, outcome);
        SetMarkerKeeps(w, p.token, RecordRow(w.markers[p.token], p.phase.snap, p.phase.failure, false, outcome));
      case _ =>
    }
  }

  /** What the script answers is the identity it recorded for the token. */
  ghost predicate OwnReply(w: World, token: Token, reply: Reply) {
    && (reply.MarkerId? ==> token in w.dedup && w.dedup[token] == reply.id)
    && (reply.InvalidDedup? && reply.candidate.Some? ==> token in w.dedup && w.dedup[token] == reply.candidate.value)
  }

  lemma ScriptRepliesOwn(w: World, token: Token, snap: Snapshot, added: Id)
    ensures OwnReply(if ScriptAdds(w, token, snap) then AddMarker(w, token, added) else w, token,
                     ScriptReply(w, token, snap, added))
  {
  }

  lemma AfterReplyCarriesOwn(w: World, token: Token, snap: Snapshot, reply: Reply)
    requires PublishingOk(w, Publishing(token, Fetched(snap))) && OwnReply(w, token, reply)
    ensures PublishingOk(w, Publishing(token, AfterReply(snap, reply)))
  {
  }

  lemma ReplyCarriesOwnIdentity(w: World, p: Publishing, added: Id, outcome: Outcome)
    requires WorldInv(w) && PublishingOk(w, p) && CanPublish(w, p, PublishScript(added, outcome))
    requires Grows(w, PublishWorld(w, p, PublishScript(added, outcome)))
    ensures PublishingOk(PublishWorld(w, p, PublishScript(added, outcome)),
                         PublishNext(w, p, PublishScript(added, outcome)))
  {
    var w' := PublishWorld(w, p, PublishScript(added, outcome));
    PublishingPersists(w, w', p);
    ScriptRepliesOwn(w, p.token, p.phase.snap, added);
    var reply := if outcome.Committed? then ScriptReply(w, p.token, p.phase.snap, added) else NoReply;
    AfterReplyCarriesOwn(w', p.token, p.phase.snap, reply);
  }

  lemma PublishKeepsPublisher(w: World, p: Publishing, a: PublishAction)
    requires WorldInv(w) && PublishingOk(w, p) && CanPublish(w, p, a)
    requires Grows(w, PublishWorld(w, p, a))
    ensures PublishingOk(PublishWorld(w, p, a), PublishNext(w, p, a))
  {
    match a {
      case PublishScript(added, outcome) => ReplyCarriesOwnIdentity(w, p, added, outcome);
      case CommitMarker(_) => PublishingPersists(w, PublishWorld(w, p, a), p);
      case _ =>
    }
  }

  predicate ByProcess(step: Step) {
    step.Take? || step.Finalize? || step.TrimHistory? || step.Start? || step.Publish?
  }

  lemma EnvironmentKeeps(s: State, step: Step)
    requires Inv(s) && Enabled(s, step) && !ByProcess(step)
    ensures WorldInv(Apply(s, step).world) && Grows(s.world, Apply(s, step).world)
  {
    match step {
      case Produce(id, message) => AddKeeps(s.world, id, message);
      case OtherConsumerReads(id) => DeliverKeeps(s.world, id);
      case OtherClientAcks(id) => ForeignAckKeeps(s.world, id);
      case OtherClientDeletes(id) => ForeignDeleteKeeps(s.world, id);
      case AuthorityDegraded => DegradeKeeps(s.world);
      case RowCommits(id) => StoreKeeps(s.world, id);
      case BoundaryRequested(token) => RequestMarkerKeeps(s.world, token);
      case _ =>
    }
  }

  // Each kind of process step, on the stores and the process that takes it.

  lemma TakeKeepsWriter(w: World, wr: Writer, a: IntakeAction)
    requires WorldInv(w) && WriterInv(w, wr) && CanTake(w, wr.intake, a)
    ensures var w' := TakeWorld(w, wr.intake, a);
            && WorldInv(w') && Grows(w, w')
            && WriterInv(w', wr.(intake := TakeIntake(w, wr.intake, a), durable := TakeQueue(wr.durable, a)))
  {
    TakeKeepsWorld(w, wr.intake, a);
    WriterPersists(w, TakeWorld(w, wr.intake, a), wr);
    TakeKeepsIntake(w, wr.intake, a);
    TakeKeepsQueue(w, wr.intake, wr.durable, a);
  }

  lemma FinalizeKeepsWriter(w: World, wr: Writer, a: FinalizeAction)
    requires WorldInv(w) && WriterInv(w, wr) && CanFinalize(w, wr.finalizer, wr.durable, a)
    ensures var w' := FinalizeWorld(w, wr.finalizer, wr.durable, a);
            && WorldInv(w') && Grows(w, w')
            && WriterInv(w', wr.(finalizer := FinalizeNext(w, wr.finalizer, wr.durable, a),
                                 history := HistoryNext(w, wr.finalizer, wr.history, a),
                                 durable := FinalizeQueue(wr.finalizer, wr.durable, a)))
  {
    var w' := FinalizeWorld(w, wr.finalizer, wr.durable, a);
    FinalizeKeepsWorld(w, wr.finalizer, wr.durable, a);
    WriterPersists(w, w', wr);
    FinalizeKeepsFinalizer(w, wr.finalizer, wr.durable, a);
    FinalizeKeepsQueue(w', wr.finalizer, wr.durable, a);
  }

  lemma TrimKeepsWriter(w: World, wr: Writer, a: TrimAction)
    requires WorldInv(w) && WriterInv(w, wr) && CanTrim(w, wr.trimming, a)
    ensures var w' := TrimWorld(w, wr.trimming, a);
            WorldInv(w') && Grows(w, w') && WriterInv(w', wr.(trimming := TrimNext(w, wr.trimming, a)))
  {
    TrimActionKeeps(w, wr.trimming, a);
    WriterPersists(w, TrimWorld(w, wr.trimming, a), wr);
  }

  lemma StartKeepsWriter(w: World, wr: Writer, a: StartAction)
    requires WorldInv(w) && WriterInv(w, wr) && CanStart(w, wr.starting, a)
    ensures var w' := StartWorld(w, wr.starting, a);
            WorldInv(w') && Grows(w, w') && WriterInv(w', wr.(starting := StartNext(w, wr.starting, a)))
  {
    StartActionKeeps(w, wr.starting, a);
    WriterPersists(w, StartWorld(w, wr.starting, a), wr);
  }

  lemma PublishKeepsWriter(w: World, wr: Writer, a: PublishAction)
    requires WorldInv(w) && WriterInv(w, wr) && CanPublish(w, wr.publishing, a)
    ensures var w' := PublishWorld(w, wr.publishing, a);
            WorldInv(w') && Grows(w, w') && WriterInv(w', wr.(publishing := PublishNext(w, wr.publishing, a)))
  {
    PublishKeepsWorld(w, wr.publishing, a);
    WriterPersists(w, PublishWorld(w, wr.publishing, a), wr);
    PublishKeepsPublisher(w, wr.publishing, a);
  }

  /** Processes a step does not involve keep what they rely on. */
  lemma BystandersKeep(s: State, w': World, p: nat, wr': Writer)
    requires Inv(s) && WorldInv(w') && Grows(s.world, w') && WriterInv(w', wr')
    ensures Inv(State(w', s.writers[p := wr']))
  {
    forall q | q in s.writers && q != p ensures WriterInv(w', s.writers[q]) {
      WriterPersists(s.world, w', s.writers[q]);
    }
  }

  lemma ProcessKeeps(s: State, step: Step)
    requires Inv(s) && Enabled(s, step) && ByProcess(step)
    ensures Inv(Apply(s, step)) && Grows(s.world, Apply(s, step).world)
  {
    match step {
      case Take(p, a) => TakeKeepsWriter(s.world, s.writers[p], a);
      case Finalize(p, a) => FinalizeKeepsWriter(s.world, s.writers[p], a);
      case TrimHistory(p, a) => TrimKeepsWriter(s.world, s.writers[p], a);
      case Start(p, a) => StartKeepsWriter(s.world, s.writers[p], a);
      case Publish(p, a) => PublishKeepsWriter(s.world, s.writers[p], a);
    }
    var s' := Apply(s, step);
    BystandersKeep(s, s'.world, step.p, s'.writers[step.p]);
  }

  lemma EnvironmentKeepsAll(s: State, step: Step)
    requires Inv(s) && Enabled(s, step) && !ByProcess(step)
    ensures Inv(Apply(s, step)) && Grows(s.world, Apply(s, step).world)
  {
    EnvironmentKeeps(s, step);
    var s' := Apply(s, step);
    forall q | q in s'.writers ensures WriterInv(s'.world, s'.writers[q]) {
      if q in s.writers { WriterPersists(s.world, s'.world, s.writers[q]); }
    }
  }

  lemma StepKeeps(s: State, step: Step)
    requires Inv(s) && Enabled(s, step)
    ensures Inv(Apply(s, step)) && Grows(s.world, Apply(s, step).world)
  {
    if ByProcess(step) { ProcessKeeps(s, step); } else { EnvironmentKeepsAll(s, step); }
  }

  // ----- whole runs

  /** Deployment against any stream, with or without history: everything that is not unread or
      pending in it is outside the pipeline's responsibility. A stream whose group has read nothing
      and which records no deletion still holds all its entries. */
  ghost predicate Init(s: State) {
    var w := s.world;
    && s.writers == map[]
    && 0 !in w.admitted && w.entries <= w.admitted.Keys
    && w.pending <= w.delivered <= w.admitted.Keys
    && (forall id <- w.delivered :: id <= w.lastDelivered)
    && (w.lastDelivered == 0 && w.entriesRead == 0 && w.maxDeleted == 0 ==> w.entries == w.admitted.Keys)
    && w.watermark == None && w.markers == map[] && w.dedup == map[]
    && w.rows == {} && w.deadLettered == {}
    && w.outside == set id | id in w.admitted && !(id in w.entries && (id > w.lastDelivered || id in w.pending))
  }

  lemma InitHolds(s: State)
    requires Init(s)
    ensures Inv(s)
  {
    var w := s.world;
    if w.lastDelivered == 0 {
      assert forall id <- w.delivered :: id == 0;
      assert w.delivered == {};
    }
    forall id | id in w.admitted ensures Safe(w, id) {
    }
  }

  ghost predicate Run(s: State, steps: seq<Step>)
    decreases |steps|
  {
    steps == [] || (Enabled(s, steps[0]) && Run(Apply(s, steps[0]), steps[1..]))
  }

  ghost function After(s: State, steps: seq<Step>): State
    requires Run(s, steps)
    decreases |steps|
  {
    if steps == [] then s else After(Apply(s, steps[0]), steps[1..])
  }

  lemma {:induction false} RunKeeps(s: State, steps: seq<Step>)
    requires Inv(s) && Run(s, steps)
    ensures Inv(After(s, steps))
    decreases |steps|
  {
    if steps != [] {
      StepKeeps(s, steps[0]);
      RunKeeps(Apply(s, steps[0]), steps[1..]);
    }
  }

  /** Frontier soundness. In every reachable state whose watermark is healthy, every entry ever
      admitted up to the contiguous identifier was delivered, is neither pending nor in the stream,
      and is a ClickHouse row with its own payload or a published marker with its own identifier. */
  lemma HealthyFrontierIsSound(s: State, steps: seq<Step>, id: Id)
    requires Init(s) && Run(s, steps)
    requires var w := After(s, steps).world;
             && w.watermark.Some? && w.watermark.value.healthy
             && id in w.admitted && id <= w.watermark.value.contiguous
    ensures var w := After(s, steps).world;
            && id in w.delivered && id !in w.pending && id !in w.entries
            && match w.admitted[id] {
                 case Event(payload) => (id, payload) in w.rows
                 case Marker(token) => token in w.markers && PublishedAs(w.markers[token], id)
                 case Malformed => false
               }
  {
    InitHolds(s);
    RunKeeps(s, steps);
  }

  /** No loss. In every reachable state every admitted entry is still unread or pending in the
      stream, or stored, or dead-lettered, or a marker whose row is terminal for that very
      identifier, or was removed by someone other than a writer. Buffers stay within bounds. */
  lemma NothingIsLost(s: State, steps: seq<Step>, id: Id)
    requires Init(s) && Run(s, steps) && id in After(s, steps).world.admitted
    ensures var w := After(s, steps).world;
            || (id in w.entries && (id > w.lastDelivered || id in w.pending))
            || Stored(w, id) || PublishedMarker(w, id) || QuarantinedMarker(w, id)
            || id in w.deadLettered
            || id in w.outside
    ensures forall p <- After(s, steps).writers ::
              |After(s, steps).writers[p].intake.buffer| <= After(s, steps).writers[p].intake.bufferSize
  {
    InitHolds(s);
    RunKeeps(s, steps);
    assert Safe(After(s, steps).world, id);
  }

  /** Trim safety under races. In every reachable state, applying a trim whose bound was computed
      from earlier, separate reads keeps every unread and every pending entry. */
  lemma TrimCrossesNothing(s: State, steps: seq<Step>, p: nat, id: Id)
    requires Init(s) && Run(s, steps)
    requires Enabled(After(s, steps), TrimHistory(p, TrimApply))
    requires id in After(s, steps).world.entries
    requires id > After(s, steps).world.lastDelivered || id in After(s, steps).world.pending
    ensures id in Apply(After(s, steps), TrimHistory(p, TrimApply)).world.entries
  {
    InitHolds(s);
    RunKeeps(s, steps);
    var t := After(s, steps);
    assert WriterInv(t.world, t.writers[p]);
  }

  /** Marker availability. In every reachable state, the entry recorded for a pending boundary is still in
      the stream, unless outsiders removed it. */
  lemma PendingEntryStaysInStream(s: State, steps: seq<Step>, token: Token)
    requires Init(s) && Run(s, steps)
    requires var w := After(s, steps).world;
             && token in w.markers && w.markers[token].state.Pending?
             && token in w.dedup && w.dedup[token] !in w.outside
    ensures var w := After(s, steps).world;
            var id := w.dedup[token];
            id in w.entries && id in w.admitted && w.admitted[id] == Marker(token)
  {
    InitHolds(s);
    RunKeeps(s, steps);
    assert Safe(After(s, steps).world, After(s, steps).world.dedup[token]);
  }

  lemma {:induction false} DedupKept(s: State, steps: seq<Step>, token: Token)
    requires Inv(s) && Run(s, steps) && token in s.world.dedup
    ensures token in After(s, steps).world.dedup && After(s, steps).world.dedup[token] == s.world.dedup[token]
    decreases |steps|
  {
    if steps != [] {
      StepKeeps(s, steps[0]);
      DedupKept(Apply(s, steps[0]), steps[1..], token);
    }
  }

  /** Over every run, the identifier recorded for a token never changes. */
  lemma RecordedIdentityNeverChanges(s: State, steps: seq<Step>, later: seq<Step>, token: Token)
    requires Init(s) && Run(s, steps) && Run(After(s, steps), later) && token in After(s, steps).world.dedup
    ensures token in After(After(s, steps), later).world.dedup
    ensures After(After(s, steps), later).world.dedup[token] == After(s, steps).world.dedup[token]
  {
    InitHolds(s);
    RunKeeps(s, steps);
    DedupKept(After(s, steps), later, token);
  }

  /** While a boundary row is pending, the entry its script run added is still
      in the stream (unless outsiders removed it), and the script answers every attempt with that
      same identifier; it is never rejected as an invalid deduplication record. */
  lemma PendingMarkerStaysAvailable(s: State, steps: seq<Step>, p: nat, added: Id)
    requires Init(s) && Run(s, steps)
    requires Enabled(After(s, steps), Publish(p, PublishScript(added, Committed)))
    requires var t := After(s, steps);
             var pub := t.writers[p].publishing;
             && pub.token in t.world.markers && t.world.markers[pub.token].state.Pending?
             && pub.token in t.world.dedup
             && t.world.dedup[pub.token] !in t.world.outside
    ensures var w := After(s, steps).world;
            var pub := After(s, steps).writers[p].publishing;
            && w.dedup[pub.token] in w.entries
            && ScriptReply(w, pub.token, pub.phase.snap, added) == MarkerId(w.dedup[pub.token])
            && !ScriptAdds(w, pub.token, pub.phase.snap)
  {
    InitHolds(s);
    RunKeeps(s, steps);
    var t := After(s, steps);
    assert WriterInv(t.world, t.writers[p]);
    assert Safe(t.world, t.world.dedup[t.writers[p].publishing.token]);
  }
}
