/** The delivery protocol for one project stream. Any number of writer processes run the atomic
    steps below against the shared stores, in any interleaving, beside producers, other consumers
    of the group and outsiders who acknowledge or delete delivered entries. A process may stop
    between any two steps, and every cross-store call may fail or commit without its reply. */
module Delivery {
  import opened Options
  import opened Markers
  import opened World

  const STREAM_MAX_ENTRIES: nat := 1_000_000

  // ----- what one process holds in memory

  /** Progress of finalizing the identifiers snapshotted from the durable queue. */
  datatype Finalization =
    | NotFinalizing
    | AwaitingDegrade(ids: seq<Id>)
    | Verified(ids: seq<Id>)
    | Executed(ids: seq<Id>)
    | Observed(ids: seq<Id>, nothingPending: bool, head: Id, entriesRead: nat)

  datatype Trimming = NotTrimming | SawPending | TrimBelow(bound: Id)

  datatype Starting =
    | NotStarting
    | SawGroup(head: Id, entriesRead: nat)
    | SawHistory(head: Id, entriesRead: nat, maxDeleted: Id)

  datatype Publishing = NotPublishing | Publishing(token: Token, phase: Phase)

  /** The consuming task: `inbox` holds deliveries not yet parsed, `batch` the rows of a running
      flush, `rejecting` dead-lettered deliveries whose degrade write is outstanding. */
  datatype Intake = Intake(
    bufferSize: nat,
    inbox: seq<Id>,
    buffer: seq<Id>,
    batch: Option<seq<Id>>,
    rejecting: set<Id>
  )

  datatype Finalizer = Finalizer(uncertain: bool, finalized: set<Id>, phase: Finalization)

  /** What the replies of a process's XACK + XDEL transactions add up to, told apart from what the process
      remembers: the identifiers they acknowledged since its last committed frontier, and whether an
      attempt since its last completed finalization may have been applied. */
  datatype History = History(acknowledged: set<Id>, unsettled: bool)

  /** `durable` is the queue of deliveries to acknowledge. */
  datatype Writer = Writer(
    intake: Intake,
    durable: seq<Id>,
    finalizer: Finalizer,
    history: History,
    trimming: Trimming,
    starting: Starting,
    publishing: Publishing
  )

  function NewWriter(bufferSize: nat): Writer {
    Writer(Intake(bufferSize, [], [], None, {}), [], Finalizer(false, {}, NotFinalizing), History({}, false),
           NotTrimming, NotStarting, NotPublishing)
  }

  // ----- the decisions of the protocol

  function Enqueue(queue: seq<Id>, id: Id): seq<Id> {
    if id in queue then queue else queue + [id]
  }

  function EnqueueAll(queue: seq<Id>, ids: seq<Id>): seq<Id>
    decreases |ids|
  {
    if ids == [] then queue else EnqueueAll(Enqueue(queue, ids[0]), ids[1..])
  }

  function Without(queue: seq<Id>, ids: set<Id>): seq<Id> {
    if queue == [] then []
    else if queue[0] in ids then Without(queue[1..], ids)
    else [queue[0]] + Without(queue[1..], ids)
  }

  predicate QuarantineOwns(w: World, id: Id) {
    exists t <- w.markers :: w.markers[t].state.Quarantined? && w.markers[t].observed == Some(id)
  }

  /** PostgreSQL authority for one delivery; deliveries that are not markers need none. */
  predicate Authorized(w: World, id: Id) {
    id in w.admitted && w.admitted[id].Marker? ==>
      || (var t := w.admitted[id].token;
          t in w.markers && w.markers[t].state.Published? && w.markers[t].markerId == Some(id))
      || QuarantineOwns(w, id)
  }

  predicate NeedsDegrade(w: World, ids: seq<Id>) {
    exists id <- ids :: id in w.admitted && w.admitted[id].Marker? && QuarantineOwns(w, id)
  }

  /** The finalized identifiers beyond the committed frontier. */
  function NewlyFinalized(finalized: set<Id>, contiguous: Id): set<Id> {
    set id | id in finalized && id > contiguous
  }

  predicate ExactAdvance(mark: Watermark, news: set<Id>, head: Id, entriesRead: nat) {
    && news != {} && head > mark.contiguous
    && head in news && (forall id <- news :: id <= head)
    && entriesRead - mark.entriesRead == |news|
  }

  /** The frontier transaction: advance only when the group's delivery count and head account for
      exactly the identifiers this process finalized; otherwise degrade for good. */
  function FrontierUpdate(mark: Watermark, finalized: set<Id>, head: Id, entriesRead: nat): Watermark {
    if !mark.healthy then mark
    else
      var news := NewlyFinalized(finalized, mark.contiguous);
      var idempotent := head == mark.contiguous && entriesRead == mark.entriesRead && news == {};
      if idempotent then mark
      else if ExactAdvance(mark, news, head, entriesRead) then Watermark(head, entriesRead, true)
      else mark.(healthy := false)
  }

  /** The script's reply; `added` is the identifier Redis assigns if the script adds an entry. */
  function ScriptReply(w: World, token: Token, snap: Snapshot, added: Id): Reply {
    if token in w.dedup then
      var existing := w.dedup[token];
      if snap.observed.Some? && snap.observed.value != existing then InvalidDedup(Some(existing))
      else if existing in w.entries && existing in w.admitted && w.admitted[existing] == Marker(token)
      then MarkerId(existing)
      else InvalidDedup(Some(existing))
    else if snap.observed.Some? then InvalidDedup(None)
    else if |w.entries| >= STREAM_MAX_ENTRIES then NoReply
    else MarkerId(added)
  }

  predicate ScriptAdds(w: World, token: Token, snap: Snapshot) {
    token !in w.dedup && snap.observed.None? && |w.entries| < STREAM_MAX_ENTRIES
  }

  /** The observed identity is unique within a project. */
  predicate Collides(w: World, token: Token, observed: Option<Id>) {
    observed.Some? && exists t <- w.markers :: t != token && w.markers[t].observed == observed
  }

  // ----- intake: reading, reclaiming, parsing, rejecting, flushing

  datatype IntakeAction =
    | Read(id: Id)
    | Claim(id: Id)
    | ClaimLost(id: Id)
    | LeavePending
    | Parse
    | RejectMalformed
    | RejectRow(id: Id)
    | RejectCommitted(id: Id)
    | RejectFailed(id: Id)
    | BeginFlush
    | EndFlush(stored: seq<Id>, retry: seq<Id>)

  predicate CanTake(w: World, i: Intake, a: IntakeAction) {
    match a {
      case Read(id) => CanDeliver(w, id)
      case Claim(id) => id in w.pending && id in w.entries
      case ClaimLost(id) => id in w.pending && id !in w.entries
      case LeavePending => true
      case Parse =>
        && i.inbox != [] && |i.buffer| < i.bufferSize
        && i.inbox[0] in w.admitted && !w.admitted[i.inbox[0]].Malformed?
      case RejectMalformed =>
        i.inbox != [] && i.inbox[0] in w.admitted && w.admitted[i.inbox[0]].Malformed?
      case RejectRow(id) =>
        i.batch.Some? && id in i.batch.value && id in w.admitted && w.admitted[id].Event?
      case RejectCommitted(id) => id in i.rejecting
      case RejectFailed(id) => id in i.rejecting
      case BeginFlush => i.batch.None?
      case EndFlush(stored, retry) =>
        && i.batch.Some?
        && (forall id <- stored :: id in i.batch.value && id in w.admitted
                                   && (w.admitted[id].Marker? || Stored(w, id)))
        && (forall id <- retry :: id in i.batch.value)
        && |retry| <= |i.batch.value| <= |i.buffer|
    }
  }

  function TakeWorld(w: World, i: Intake, a: IntakeAction): World
    requires CanTake(w, i, a)
  {
    match a {
      case Read(id) => Deliver(w, id)
      case ClaimLost(id) => DropClaim(w, id)
      case RejectMalformed => DeadLetter(w, i.inbox[0])
      case RejectRow(id) => DeadLetter(w, id)
      case RejectCommitted(id) => Degrade(w)
      case _ => w
    }
  }

  function TakeIntake(w: World, i: Intake, a: IntakeAction): Intake
    requires CanTake(w, i, a)
  {
    match a {
      case Read(id) => i.(inbox := i.inbox + [id])
      case Claim(id) => i.(inbox := i.inbox + [id])
      case ClaimLost(id) => i
      case LeavePending => i.(inbox := [])
      case Parse => i.(inbox := i.inbox[1..], buffer := i.buffer + [i.inbox[0]])
      case RejectMalformed => i.(inbox := i.inbox[1..], rejecting := i.rejecting + {i.inbox[0]})
      case RejectRow(id) => i.(rejecting := i.rejecting + {id})
      case RejectCommitted(id) => i.(rejecting := i.rejecting - {id})
      case RejectFailed(id) => i.(rejecting := i.rejecting - {id})
      case BeginFlush => i.(batch := Some(i.buffer))
      case EndFlush(_, retry) => i.(batch := None, buffer := retry + i.buffer[|i.batch.value|..])
    }
  }

  /** Deliveries become acknowledgeable once stored, or once their rejection is fully recorded. */
  function TakeQueue(durable: seq<Id>, a: IntakeAction): seq<Id> {
    match a {
      case RejectCommitted(id) => Enqueue(durable, id)
      case EndFlush(stored, _) => EnqueueAll(durable, stored)
      case _ => durable
    }
  }

  // ----- finalization: verify, acknowledge and delete, advance the frontier

  datatype FinalizeAction =
    | ReadAuthority(ids: seq<Id>)
    | DegradeForQuarantine
    | Execute(outcome: Outcome)
    | ObserveGroup
    | SkipFrontier
    | CommitFrontier(outcome: Outcome)
    | Abandon

  predicate CanFinalize(w: World, f: Finalizer, durable: seq<Id>, a: FinalizeAction) {
    match a {
      // The queue may have grown since the identifiers were snapshotted from it.
      case ReadAuthority(ids) =>
        f.phase.NotFinalizing? && ids != [] && ids <= durable && forall id <- ids :: Authorized(w, id)
      case DegradeForQuarantine => f.phase.AwaitingDegrade?
      case Execute(_) => f.phase.Verified?
      case ObserveGroup => f.phase.Executed?
      case SkipFrontier => f.phase.Observed? && !f.phase.nothingPending
      case CommitFrontier(_) => f.phase.Observed? && f.phase.nothingPending && w.watermark.Some?
      case Abandon => true
    }
  }

  function FinalizeWorld(w: World, f: Finalizer, durable: seq<Id>, a: FinalizeAction): World
    requires CanFinalize(w, f, durable, a)
  {
    match a {
      case DegradeForQuarantine => Degrade(w)
      case Execute(outcome) => if outcome.RolledBack? then w else AckDelete(w, f.phase.ids)
      case CommitFrontier(outcome) =>
        if outcome.RolledBack? then w
        else SetWatermark(w, FrontierUpdate(w.watermark.value, f.finalized, f.phase.head, f.phase.entriesRead))
      case _ => w
    }
  }

  /** The reply of XACK + XDEL must report the whole batch, or nothing after an uncertain attempt. Without
      a reply the attempt is uncertain, whether or not it was applied. */
  function AfterExecute(w: World, f: Finalizer, ids: seq<Id>, outcome: Outcome): Finalizer {
    var acked, deleted := |Ids(ids) * w.pending|, |Ids(ids) * w.entries|;
    if !outcome.Committed? then f.(uncertain := true, phase := NotFinalizing)
    else if (acked == |ids| && deleted == |ids|) || (f.uncertain && acked == 0 && deleted == 0)
    then Finalizer(true, f.finalized + Ids(ids), Executed(ids))
    else f.(phase := NotFinalizing)
  }

  function FinalizeNext(w: World, f: Finalizer, durable: seq<Id>, a: FinalizeAction): Finalizer
    requires CanFinalize(w, f, durable, a)
  {
    match a {
      case ReadAuthority(ids) => f.(phase := if NeedsDegrade(w, ids) then AwaitingDegrade(ids) else Verified(ids))
      case DegradeForQuarantine => f.(phase := Verified(f.phase.ids))
      case Execute(outcome) => AfterExecute(w, f, f.phase.ids, outcome)
      case ObserveGroup =>
        f.(phase := Observed(f.phase.ids, w.pending == {}, w.lastDelivered, w.entriesRead))
      case SkipFrontier => Finalizer(false, f.finalized, NotFinalizing)
      case CommitFrontier(outcome) =>
        if outcome.Committed? then Finalizer(false, {}, NotFinalizing) else f.(phase := NotFinalizing)
      case Abandon => f.(phase := NotFinalizing)
    }
  }

  /** Only a finalization that completed removes its identifiers from the queue. */
  function FinalizeQueue(f: Finalizer, durable: seq<Id>, a: FinalizeAction): seq<Id> {
    if (a.SkipFrontier? || a == CommitFrontier(Committed)) && f.phase.Observed?
    then Without(durable, Ids(f.phase.ids)) else durable
  }

  /** What one step adds to the history. A reply acknowledges a batch when all of it was pending and present,
      or none of it was and an earlier attempt may have been applied. */
  function HistoryNext(w: World, f: Finalizer, h: History, a: FinalizeAction): History {
    match a {
      case Execute(outcome) =>
        if !f.phase.Verified? then h
        else if !outcome.Committed? then h.(unsettled := true)
        else if (forall id <- f.phase.ids :: id in w.pending && id in w.entries)
                || (h.unsettled && forall id <- f.phase.ids :: id !in w.pending && id !in w.entries)
        then History(h.acknowledged + Ids(f.phase.ids), true)
        else h
      case SkipFrontier => h.(unsettled := false)
      case CommitFrontier(outcome) => if outcome.Committed? then History({}, false) else h
      case _ => h
    }
  }

  // ----- trimming acknowledged history

  datatype TrimAction = TrimObserve | TrimSummary(minimum: Id) | TrimApply

  predicate CanTrim(w: World, t: Trimming, a: TrimAction) {
    match a {
      case TrimObserve => t.NotTrimming? && w.lastDelivered != 0
      case TrimSummary(minimum) =>
        t.SawPending? && (w.pending != {} ==> minimum in w.pending && forall id <- w.pending :: minimum <= id)
      case TrimApply => t.TrimBelow?
    }
  }

  function TrimWorld(w: World, t: Trimming, a: TrimAction): World
    requires CanTrim(w, t, a)
  {
    if a.TrimApply? then Trim(w, t.bound) else w
  }

  function TrimNext(w: World, t: Trimming, a: TrimAction): Trimming
    requires CanTrim(w, t, a)
  {
    match a {
      case TrimObserve => if w.pending == {} then TrimBelow(w.lastDelivered + 1) else SawPending
      case TrimSummary(minimum) => if w.pending == {} then NotTrimming else TrimBelow(minimum)
      case TrimApply => NotTrimming
    }
  }

  // ----- start: compare with the committed frontier, or create the watermark

  datatype StartAction = StartObserve | StartCompare | StartHistory | StartInsert | StartAbandon

  predicate CanStart(w: World, st: Starting, a: StartAction) {
    match a {
      case StartObserve => st.NotStarting?
      case StartCompare => st.SawGroup? && w.watermark.Some?
      case StartHistory => st.SawGroup? && w.watermark.None?
      case StartInsert => st.SawHistory?
      case StartAbandon => true
    }
  }

  /** The first watermark is healthy only for a group that has read nothing from an intact stream. */
  function GenesisMark(st: Starting): Watermark
    requires st.SawHistory?
  {
    Watermark(0, st.entriesRead, st.head == 0 && st.entriesRead == 0 && st.maxDeleted == 0)
  }

  function StartWorld(w: World, st: Starting, a: StartAction): World
    requires CanStart(w, st, a)
  {
    match a {
      case StartCompare =>
        var mark := w.watermark.value;
        if mark.healthy && (st.head != mark.contiguous || st.entriesRead != mark.entriesRead)
        then Degrade(w) else w
      case StartInsert => if w.watermark.Some? then w else SetWatermark(w, GenesisMark(st))
      case _ => w
    }
  }

  function StartNext(w: World, st: Starting, a: StartAction): Starting
    requires CanStart(w, st, a)
  {
    match a {
      case StartObserve => SawGroup(w.lastDelivered, w.entriesRead)
      case StartHistory => SawHistory(st.head, st.entriesRead, w.maxDeleted)
      case _ => NotStarting
    }
  }

  // ----- publishing one marker

  datatype PublishAction =
    | FetchMarker(token: Token)
    | PublishScript(added: Id, outcome: Outcome)
    | CommitMarker(outcome: Outcome)
    | RecordMarker(outcome: Outcome)
    | AbandonMarker

  predicate CanPublish(w: World, p: Publishing, a: PublishAction) {
    match a {
      case FetchMarker(token) => p.NotPublishing? && token in w.markers && w.markers[token].state.Pending?
      case PublishScript(added, _) =>
        p.Publishing? && p.phase.Fetched? && (ScriptAdds(w, p.token, p.phase.snap) ==> CanAdd(w, added))
      case CommitMarker(_) => p.Publishing? && p.phase.Replied? && p.token in w.markers
      case RecordMarker(_) => p.Publishing? && p.phase.Failed? && p.token in w.markers
      case AbandonMarker => true
    }
  }

  /** The outcome of a marker transaction, given the uniqueness constraint. */
  function MarkerOutcome(w: World, token: Token, id: Id, outcome: Outcome): Outcome {
    if Collides(w, token, Some(id)) then RolledBack else outcome
  }

  function PublishWorld(w: World, p: Publishing, a: PublishAction): World
    requires CanPublish(w, p, a)
  {
    match a {
      case PublishScript(added, outcome) =>
        if !outcome.RolledBack? && ScriptAdds(w, p.token, p.phase.snap) then AddMarker(w, p.token, added) else w
      case CommitMarker(outcome) =>
        SetMarker(w, p.token,
                  CommitRow(w.markers[p.token], p.phase.snap, p.phase.id,
                            MarkerOutcome(w, p.token, p.phase.id, outcome)))
      case RecordMarker(outcome) =>
        SetMarker(w, p.token,
                  RecordRow(w.markers[p.token], p.phase.snap, p.phase.failure,
                            Collides(w, p.token, ObservedToRecord(p.phase.snap, p.phase.failure)), outcome))
      case _ => w
    }
  }

  function PublishNext(w: World, p: Publishing, a: PublishAction): Publishing
    requires CanPublish(w, p, a)
  {
    match a {
      case FetchMarker(token) =>
        Publishing(token, Fetched(Snapshot(w.markers[token].attempts, w.markers[token].observed)))
      case PublishScript(added, outcome) =>
        var reply := if outcome.Committed? then ScriptReply(w, p.token, p.phase.snap, added) else NoReply;
        Publishing(p.token, AfterReply(p.phase.snap, reply))
      case CommitMarker(outcome) =>
        var next := AfterCommit(w.markers[p.token], p.phase.snap, p.phase.id,
                                MarkerOutcome(w, p.token, p.phase.id, outcome));
        if next.Some? then Publishing(p.token, next.value) else NotPublishing
      case _ => NotPublishing
    }
  }

  // ----- the whole system

  datatype State = State(world: World, writers: map<nat, Writer>)

  datatype Step =
    | Produce(id: Id, message: Message)
    | OtherConsumerReads(id: Id)
    | OtherClientAcks(id: Id)
    | OtherClientDeletes(id: Id)
    | AuthorityDegraded
    | RowCommits(id: Id)
    | BoundaryRequested(token: Token)
    | Launch(p: nat, bufferSize: nat)
    | Stop(p: nat)
    | Take(p: nat, take: IntakeAction)
    | Finalize(p: nat, finalize: FinalizeAction)
    | TrimHistory(p: nat, trim: TrimAction)
    | Start(p: nat, start: StartAction)
    | Publish(p: nat, publish: PublishAction)

  predicate Enabled(s: State, step: Step) {
    match step {
      case Produce(id, _) => CanAdd(s.world, id)
      case OtherConsumerReads(id) => CanDeliver(s.world, id)
      case OtherClientAcks(id) => id in s.world.pending
      case OtherClientDeletes(id) => id in s.world.entries && id <= s.world.lastDelivered
      case AuthorityDegraded => true
      case RowCommits(id) => id in s.world.delivered && id in s.world.admitted && s.world.admitted[id].Event?
      case BoundaryRequested(token) => token !in s.world.markers
      case Launch(p, _) => p !in s.writers
      case Stop(p) => p in s.writers
      case Take(p, a) => p in s.writers && CanTake(s.world, s.writers[p].intake, a)
      case Finalize(p, a) =>
        p in s.writers && CanFinalize(s.world, s.writers[p].finalizer, s.writers[p].durable, a)
      case TrimHistory(p, a) => p in s.writers && CanTrim(s.world, s.writers[p].trimming, a)
      case Start(p, a) => p in s.writers && CanStart(s.world, s.writers[p].starting, a)
      case Publish(p, a) => p in s.writers && CanPublish(s.world, s.writers[p].publishing, a)
    }
  }

  function Apply(s: State, step: Step): State
    requires Enabled(s, step)
  {
    match step {
      case Produce(id, message) => s.(world := Add(s.world, id, message))
      case OtherConsumerReads(id) => s.(world := Deliver(s.world, id))
      case OtherClientAcks(id) => s.(world := ForeignAck(s.world, id))
      case OtherClientDeletes(id) => s.(world := ForeignDelete(s.world, id))
      case AuthorityDegraded => s.(world := Degrade(s.world))
      case RowCommits(id) => s.(world := Store(s.world, id))
      case BoundaryRequested(token) => s.(world := RequestMarker(s.world, token))
      case Launch(p, bufferSize) => s.(writers := s.writers[p := NewWriter(bufferSize)])
      case Stop(p) => s.(writers := s.writers - {p})
      case Take(p, a) =>
        var wr := s.writers[p];
        State(TakeWorld(s.world, wr.intake, a),
              s.writers[p := wr.(intake := TakeIntake(s.world, wr.intake, a), durable := TakeQueue(wr.durable, a))])
      case Finalize(p, a) =>
        var wr := s.writers[p];
        State(FinalizeWorld(s.world, wr.finalizer, wr.durable, a),
              s.writers[p := wr.(finalizer := FinalizeNext(s.world, wr.finalizer, wr.durable, a),
              history := HistoryNext(s.world, wr.finalizer, wr.history, a),
              durable := FinalizeQueue(wr.finalizer, wr.durable, a))])
      case TrimHistory(p, a) =>
        var wr := s.writers[p];
        State(TrimWorld(s.world, wr.trimming, a),
              s.writers[p := wr.(trimming := TrimNext(s.world, wr.trimming, a))])
      case Start(p, a) =>
        var wr := s.writers[p];
        State(StartWorld(s.world, wr.starting, a),
              s.writers[p := wr.(starting := StartNext(s.world, wr.starting, a))])
      case Publish(p, a) =>
        var wr := s.writers[p];
        State(PublishWorld(s.world, wr.publishing, a),
              s.writers[p := wr.(publishing := PublishNext(s.world, wr.publishing, a))])
    }
  }

  // ----- what a process may rely on

  ghost predicate IntakeOk(w: World, i: Intake) {
    && (forall id <- i.inbox :: id in w.delivered)
    && (forall id <- i.buffer :: id in w.delivered)
    && (i.batch.Some? ==> i.batch.value <= i.buffer)
    && |i.buffer| <= i.bufferSize
    && i.rejecting <= w.deadLettered
  }

  /** A delivery may be queued for acknowledgement once it is a marker, a stored row, or
      dead-lettered with the authority already degraded. */
  predicate Queueable(w: World, id: Id) {
    id in w.delivered && id in w.admitted
    && (w.admitted[id].Marker? || Stored(w, id) || (id in w.deadLettered && Degraded(w)))
  }

  /** A delivery may be acknowledged: accounted for, and clean unless the authority is degraded. */
  predicate Ackable(w: World, id: Id) {
    id in w.delivered && Accounted(w, id) && (Clean(w, id) || Degraded(w))
  }

  predicate Final(w: World, id: Id) {
    id in w.delivered && Gone(w, id) && (Clean(w, id) || Degraded(w))
  }

  ghost predicate QueueOk(w: World, durable: seq<Id>) {
    forall id <- durable :: Queueable(w, id)
  }

  ghost predicate FinalizedOk(w: World, finalized: set<Id>) {
    forall id <- finalized :: Final(w, id)
  }

  ghost predicate PhaseHolds(w: World, f: Finalization) {
    match f {
      case NotFinalizing => true
      case AwaitingDegrade(ids) => forall id <- ids :: id in w.delivered && Accounted(w, id)
      case Verified(ids) => forall id <- ids :: Ackable(w, id)
      case Executed(ids) => forall id <- ids :: Final(w, id)
      case Observed(ids, _, head, read) =>
        && head <= w.lastDelivered
        && read - |UpTo(w.delivered, head)| == w.entriesRead - |w.delivered|
    }
  }

  ghost predicate TrimmingOk(w: World, t: Trimming) {
    t.TrimBelow? ==> t.bound <= w.lastDelivered + 1 && forall id <- w.pending :: id >= t.bound
  }

  ghost predicate StartingOk(w: World, st: Starting) {
    match st {
      case NotStarting => true
      case SawGroup(head, read) => head == 0 && read == 0 ==> Exact(w) || w.maxDeleted > 0
      case SawHistory(head, read, deleted) => head == 0 && read == 0 && deleted == 0 ==> Exact(w)
    }
  }

  /** Every identity a publisher carries is the one its script run recorded for the token. */
  ghost predicate PublishingOk(w: World, p: Publishing) {
    p.Publishing? ==>
      && p.token in w.markers && PhaseOk(w.markers[p.token], p.phase)
      && (p.phase.snap.observed.Some? ==> p.token in w.dedup && w.dedup[p.token] == p.phase.snap.observed.value)
      && (p.phase.Replied? ==> p.token in w.dedup && w.dedup[p.token] == p.phase.id)
      && (p.phase.Failed? && p.phase.failure.observed.Some? ==>
            p.token in w.dedup && w.dedup[p.token] == p.phase.failure.observed.value)
  }

  ghost predicate WriterInv(w: World, wr: Writer) {
    && IntakeOk(w, wr.intake)
    && QueueOk(w, wr.durable)
    && FinalizedOk(w, wr.finalizer.finalized)
    && PhaseHolds(w, wr.finalizer.phase)
    && TrimmingOk(w, wr.trimming)
    && StartingOk(w, wr.starting)
    && PublishingOk(w, wr.publishing)
  }

  ghost predicate Inv(s: State) {
    WorldInv(s.world) && forall p <- s.writers :: WriterInv(s.world, s.writers[p])
  }
}
