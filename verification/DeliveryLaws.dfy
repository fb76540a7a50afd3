/** What single decisions of the delivery protocol mean, told without their own definitions: which way the
    watermark can move, when a restart degrades it, what authority is, what a trim removes, and what the
    publication script answers. */
module DeliveryLaws {
  import opened Options
  import opened Markers
  import opened World
  import opened Delivery
  import Safety = DeliverySafety

  // ----- the watermark only moves forward, and degrades where it stands

  ghost predicate MarkMoves(before: Option<Watermark>, after: Option<Watermark>) {
    before.Some? ==>
      && after.Some? && before.value.contiguous <= after.value.contiguous
      && (!before.value.healthy ==> after == before)
      && (!after.value.healthy ==> after.value.contiguous == before.value.contiguous
                                   && after.value.entriesRead == before.value.entriesRead)
  }

  lemma ProcessMovesMark(s: State, step: Step)
    requires Enabled(s, step) && Safety.ByProcess(step)
    ensures MarkMoves(s.world.watermark, Apply(s, step).world.watermark)
  {
  }

  lemma StepMovesMark(s: State, step: Step)
    requires Enabled(s, step)
    ensures MarkMoves(s.world.watermark, Apply(s, step).world.watermark)
  {
    if Safety.ByProcess(step) { ProcessMovesMark(s, step); }
  }

  /** Over every run from any state: a watermark, once it exists, never moves back, and once degraded it is
      frozen. */
  lemma {:induction false} WatermarkNeverMovesBack(s: State, steps: seq<Step>)
    requires Safety.Run(s, steps)
    ensures MarkMovesOver(s.world.watermark, Safety.After(s, steps).world.watermark)
    decreases |steps|
  {
    if steps != [] {
      StepMovesMark(s, steps[0]);
      WatermarkNeverMovesBack(Apply(s, steps[0]), steps[1..]);
    }
  }

  ghost predicate MarkMovesOver(before: Option<Watermark>, after: Option<Watermark>) {
    before.Some? ==>
      && after.Some? && before.value.contiguous <= after.value.contiguous
      && (!before.value.healthy ==> after == before)
  }

  // ----- a restart

  /** A restart that observes the group as it is leaves a healthy mark alone if and only if nothing was
      handed out beyond it; otherwise it degrades the mark in place. */
  lemma RestartDegradesExactlyWhenAhead(w: World)
    requires WorldInv(w) && w.watermark.Some? && w.watermark.value.healthy
    requires w.lastDelivered == 0 || w.lastDelivered in w.delivered
    ensures var mark := w.watermark.value;
            var after := StartWorld(w, SawGroup(w.lastDelivered, w.entriesRead), StartCompare);
            && (after == w <==> forall id <- w.delivered :: id <= mark.contiguous)
            && (after != w ==> after == w.(watermark := Some(mark.(healthy := false))))
  {
    var mark := w.watermark.value;
    if forall id <- w.delivered :: id <= mark.contiguous {
      assert UpTo(w.delivered, mark.contiguous) == w.delivered;
    }
  }

  /** Whatever was observed of the group, a healthy mark survives the comparison if and only if both the head and the
      number of entries read are the mark's own. */
  lemma RestartTrustsOnlyExactMatch(w: World, head: Id, read: nat)
    requires w.watermark.Some? && w.watermark.value.healthy
    ensures Degraded(StartWorld(w, SawGroup(head, read), StartCompare)) <==>
            head != w.watermark.value.contiguous || read != w.watermark.value.entriesRead
  {
  }

  /** The first watermark starts at 0-0, and is healthy if and only if the group had read nothing and the
      stream had lost nothing. */
  lemma FirstMarkIsHealthyExactlyWhenIntact(w: World, head: Id, read: nat, deleted: Id)
    requires w.watermark.None?
    ensures var after := StartWorld(w, SawHistory(head, read, deleted), StartInsert).watermark;
            && after.Some? && after.value.contiguous == 0 && after.value.entriesRead == read
            && (after.value.healthy <==> head == 0 && read == 0 && deleted == 0)
  {
  }

  // ----- authority

  /** A marker has authority if and only if its own row is published under it or quarantined with it. */
  lemma AuthorityIsExact(w: World, id: Id)
    requires WorldInv(w) && id in w.admitted && w.admitted[id].Marker?
    ensures Authorized(w, id) <==> PublishedMarker(w, id) || QuarantinedMarker(w, id)
    ensures QuarantineOwns(w, id) <==> QuarantinedMarker(w, id)
  {
    if Authorized(w, id) { Safety.AuthorizedIsAccounted(w, id); }
    if PublishedMarker(w, id) { assert RowOk(w.markers[w.admitted[id].token]); }
    if QuarantineOwns(w, id) {
      var t :| t in w.markers && w.markers[t].state.Quarantined? && w.markers[t].observed == Some(id);
      assert w.dedup[t] == id;
    }
  }

  /** A batch is degraded before it is acknowledged if and only if it holds a quarantined marker. */
  lemma DegradesExactlyForQuarantine(w: World, ids: seq<Id>)
    requires WorldInv(w)
    ensures NeedsDegrade(w, ids) <==> exists id <- ids :: QuarantinedMarker(w, id)
  {
    forall id | id in ids && id in w.admitted && w.admitted[id].Marker?
      ensures QuarantineOwns(w, id) <==> QuarantinedMarker(w, id)
    {
      AuthorityIsExact(w, id);
    }
  }

  // ----- an undisturbed trim

  /** With nothing pending, a trim removes exactly what was handed out. */
  lemma IdleTrimRemovesExactlyHistory(w: World)
    requires w.lastDelivered != 0 && w.pending == {}
    ensures CanTrim(w, NotTrimming, TrimObserve)
    ensures var t := TrimNext(w, NotTrimming, TrimObserve);
            && CanTrim(w, t, TrimApply) && TrimNext(w, t, TrimApply) == NotTrimming
            && TrimWorld(w, t, TrimApply) == w.(entries := set id | id in w.entries && id > w.lastDelivered)
  {
    assert (set id | id in w.entries && id >= w.lastDelivered + 1) == set id | id in w.entries && id > w.lastDelivered;
  }

  /** With deliveries pending, it removes exactly what lies before the first of them. */
  lemma BusyTrimRemovesExactlyBefore(w: World, minimum: Id)
    requires w.lastDelivered != 0 && minimum in w.pending && forall id <- w.pending :: minimum <= id
    ensures CanTrim(w, NotTrimming, TrimObserve) && TrimNext(w, NotTrimming, TrimObserve) == SawPending
    ensures CanTrim(w, SawPending, TrimSummary(minimum))
    ensures var t := TrimNext(w, SawPending, TrimSummary(minimum));
            && CanTrim(w, t, TrimApply)
            && TrimWorld(w, t, TrimApply) == w.(entries := set id | id in w.entries && id >= minimum)
  {
  }

  // ----- the publication script

  /** The script adds an entry only for a token without a record or an observed identity, and only below the
      stream's capacity. It answers with the new entry's identifier, or with the recorded one while that
      entry is still the token's own; a full stream is an error; all else is an invalid record. */
  lemma ScriptAnswersExactly(w: World, token: Token, snap: Snapshot, added: Id, id: Id)
    ensures var reply := ScriptReply(w, token, snap, added);
            && (ScriptAdds(w, token, snap) <==>
                  token !in w.dedup && snap.observed.None? && |w.entries| < 1_000_000)
            && (reply == MarkerId(id) <==>
                  || (ScriptAdds(w, token, snap) && id == added)
                  || (&& token in w.dedup && w.dedup[token] == id && id in w.entries
                      && id in w.admitted && w.admitted[id] == Marker(token)
                      && (snap.observed.None? || snap.observed.value == id)))
            && (reply.NoReply? <==> token !in w.dedup && snap.observed.None? && |w.entries| >= 1_000_000)
            && (reply.InvalidDedup? ==>
                  reply.candidate == if token in w.dedup then Some(w.dedup[token]) else None)
            && !reply.Unreadable?
  {
  }

  // ----- what a process holds

  /** Every delivery the process has received and not let go of. */
  function Holding(i: Intake, durable: seq<Id>): set<Id> {
    Ids(i.inbox) + Ids(i.buffer) + i.rejecting + Ids(durable)
  }

  /** Receiving adds exactly the delivery received; parsing, rejecting, committing a rejection and starting a flush
      lose and add nothing. */
  lemma IntakeLosesNothing(w: World, i: Intake, durable: seq<Id>, a: IntakeAction)
    requires CanTake(w, i, a) && !a.LeavePending? && !a.RejectFailed? && !a.EndFlush?
    requires a.RejectRow? ==> i.batch.Some? && i.batch.value <= i.buffer
    ensures Holding(TakeIntake(w, i, a), TakeQueue(durable, a)) ==
            Holding(i, durable) + if a.Read? || a.Claim? then {a.id} else {}
    ensures a.RejectMalformed? ==> i.inbox[0] in TakeIntake(w, i, a).rejecting
    ensures a.RejectRow? ==> a.id in TakeIntake(w, i, a).rejecting
    ensures a.RejectCommitted? ==> a.id in TakeQueue(durable, a) && a.id !in TakeIntake(w, i, a).rejecting
  {
    if a.Parse? || a.RejectMalformed? { assert i.inbox == [i.inbox[0]] + i.inbox[1..]; }
  }

  /** Giving up leaves exactly what was not parsed yet, or the rejection that was not recorded; the end of a flush
      queues what was stored, and keeps what is to be retried before what arrived meanwhile. */
  lemma IntakeLetsGoExactly(w: World, i: Intake, durable: seq<Id>, a: IntakeAction)
    requires CanTake(w, i, a)
    ensures a.LeavePending? ==> TakeIntake(w, i, a) == i.(inbox := []) && TakeQueue(durable, a) == durable
    ensures a.RejectFailed? ==>
              TakeIntake(w, i, a).rejecting == i.rejecting - {a.id} && TakeQueue(durable, a) == durable
    ensures a.EndFlush? ==>
              && TakeIntake(w, i, a).buffer == a.retry + i.buffer[|i.batch.value|..] && TakeIntake(w, i, a).batch.None?
              && (forall id :: id in TakeQueue(durable, a) <==> id in durable || id in a.stored)
  {
    if a.EndFlush? { Safety.EnqueueAllMembers(durable, a.stored); }
  }

  /** An identifier leaves the queue if and only if it was in a batch that was acknowledged and observed, and whose
      frontier step was skipped or replied to. */
  lemma QueueLetsGoExactly(w: World, f: Finalizer, durable: seq<Id>, a: FinalizeAction, id: Id)
    requires CanFinalize(w, f, durable, a) && id in durable
    ensures id !in FinalizeQueue(f, durable, a) <==>
            f.phase.Observed? && id in f.phase.ids && (a.SkipFrontier? || (a.CommitFrontier? && a.outcome.Committed?))
  {
    if f.phase.Observed? { Safety.WithoutMembers(durable, Ids(f.phase.ids)); }
  }

  // ----- one publication, step by step

  /** No two boundaries carry the same observed identity. */
  lemma IdentitiesAreUnique(w: World, a: Token, b: Token)
    requires WorldInv(w) && a in w.markers && b in w.markers && w.markers[a].observed.Some?
    requires w.markers[a].observed == w.markers[b].observed
    ensures a == b
  {
    var id := w.markers[a].observed.value;
    assert w.dedup[a] == id && w.dedup[b] == id;
  }

  /** Undisturbed, with an answering script, the pending boundary is published under the identity the script
      answers, whatever its earlier attempts. */
  lemma UndisturbedPublicationPublishes(w: World, token: Token, added: Id, id: Id)
    requires WorldInv(w) && token in w.markers && w.markers[token].state.Pending?
    requires var snap := Snapshot(w.markers[token].attempts, w.markers[token].observed);
             && ScriptReply(w, token, snap, added) == MarkerId(id) && ValidMarkerId(id)
             && (ScriptAdds(w, token, snap) ==> CanAdd(w, added))
    ensures CanPublish(w, NotPublishing, FetchMarker(token))
    ensures var p1 := PublishNext(w, NotPublishing, FetchMarker(token));
            && CanPublish(w, p1, PublishScript(added, Committed))
            && var w2, p2 := PublishWorld(w, p1, PublishScript(added, Committed)),
                             PublishNext(w, p1, PublishScript(added, Committed));
               && CanPublish(w2, p2, CommitMarker(Committed))
               && PublishNext(w2, p2, CommitMarker(Committed)) == NotPublishing
               && PublishWorld(w2, p2, CommitMarker(Committed)).markers ==
                  w.markers[token := Row(Published, w.markers[token].attempts, Some(id), Some(id))]
  {
    assert RowOk(w.markers[token]);
    assert !Collides(w, token, Some(id));
  }

  /** When the script does not answer, one attempt is recorded: the fifth quarantines, an earlier one leaves the
      boundary pending with what was observed. */
  lemma UnansweredScriptIsCounted(w: World, token: Token, added: Id)
    requires WorldInv(w) && token in w.markers && w.markers[token].state.Pending?
    requires ScriptAdds(w, token, Snapshot(w.markers[token].attempts, w.markers[token].observed)) ==> CanAdd(w, added)
    ensures var row, p1 := w.markers[token], PublishNext(w, NotPublishing, FetchMarker(token));
            var p2 := PublishNext(w, p1, PublishScript(added, RolledBack));
            && CanPublish(w, p2, RecordMarker(Committed))
            && PublishNext(w, p2, RecordMarker(Committed)) == NotPublishing
            && PublishWorld(w, p2, RecordMarker(Committed)).markers ==
               w.markers[token := Row(if row.attempts == 4 then Quarantined else Pending, row.attempts + 1, None,
                                      row.observed)]
  {
    assert RowOk(w.markers[token]);
    assert !Collides(w, token, w.markers[token].observed);
  }

  /** A publish transaction without its reply is followed by a record of the failure, which leaves the row published
      if it had committed, and otherwise counts the attempt and keeps the identity. */
  lemma UnansweredPublishIsSettled(w: World, token: Token, snap: Snapshot, id: Id, outcome: Outcome)
    requires WorldInv(w) && token in w.markers && w.markers[token].state.Pending? && !outcome.Committed?
    requires snap == Snapshot(w.markers[token].attempts, w.markers[token].observed)
    requires token in w.dedup && w.dedup[token] == id
    ensures var row, p1 := w.markers[token], Publishing(token, Replied(snap, id));
            var w2, p2 := PublishWorld(w, p1, CommitMarker(outcome)), PublishNext(w, p1, CommitMarker(outcome));
            && CanPublish(w2, p2, RecordMarker(Committed))
            && PublishWorld(w2, p2, RecordMarker(Committed)).markers[token] ==
               if outcome.CommittedReplyLost? then Row(Published, row.attempts, Some(id), Some(id))
               else Row(if row.attempts == 4 then Quarantined else Pending, row.attempts + 1, None, Some(id))
  {
    assert RowOk(w.markers[token]);
    assert !Collides(w, token, Some(id));
  }

  /** An identity that another boundary owns cannot be published: the rows stay, and the failure goes on to be
      recorded. */
  lemma OwnedIdentityIsNotPublished(w: World, p: Publishing, outcome: Outcome, owner: Token)
    requires CanPublish(w, p, CommitMarker(outcome))
    requires owner in w.markers && owner != p.token && w.markers[owner].observed == Some(p.phase.id)
    ensures PublishWorld(w, p, CommitMarker(outcome)) == w
    ensures var next := PublishNext(w, p, CommitMarker(outcome));
            && next.Publishing? && next.token == p.token && next.phase.Failed? && !next.phase.failure.terminal
            && next.phase.failure.observed == Some(p.phase.id)
  {
    assert w.markers[p.token := w.markers[p.token]] == w.markers;
  }
}
