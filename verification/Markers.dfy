/** Publication of an experiment boundary marker: its PostgreSQL row, the guarded updates that
    publish it or record a failure, and what a publisher decides from a Redis reply. */
module Markers {
  import opened Options

  type Id = nat

  const MAX_PUBLISH_ATTEMPTS: nat := 5
  /** Identifiers whose millisecond part is zero lie below this bound. */
  const FIRST_VALID_MARKER_ID: nat := 0x1_0000_0000_0000_0000

  datatype PublishState = Pending | Published | Quarantined

  datatype Row = Row(state: PublishState, attempts: nat, markerId: Option<Id>, observed: Option<Id>)

  /** What one publisher read from the row before it talked to Redis. */
  datatype Snapshot = Snapshot(attempts: nat, observed: Option<Id>)

  datatype Failure = Failure(terminal: bool, dedupInvalid: bool, observed: Option<Id>)

  /** Replies of the publication script, after decoding. */
  datatype Reply =
    | MarkerId(id: Id)
    | InvalidDedup(candidate: Option<Id>)
    | Unreadable
    | NoReply

  datatype Phase =
    | Fetched(snap: Snapshot)
    | Replied(snap: Snapshot, id: Id)
    | Failed(snap: Snapshot, failure: Failure)

  /** How a transaction or script run ends, as seen by its client: `RolledBack` changed nothing. */
  datatype Outcome = Committed | CommittedReplyLost | RolledBack

  // ----- the publisher's own decisions

  predicate ValidMarkerId(id: Id) {
    id >= FIRST_VALID_MARKER_ID
  }

  /** Classifies a script reply: either the identifier to store or a failure to record. */
  function AfterReply(snap: Snapshot, reply: Reply): Phase {
    match reply {
      case MarkerId(id) =>
        if !ValidMarkerId(id) then Failed(snap, Failure(true, false, None))
        else if snap.observed.Some? && snap.observed.value != id then
          Failed(snap, Failure(true, true, None))
        else Replied(snap, id)
      case InvalidDedup(candidate) =>
        var valid := if candidate.Some? && ValidMarkerId(candidate.value) then candidate else None;
        Failed(snap, Failure(true, true, if snap.observed.Some? then snap.observed else valid))
      case Unreadable => Failed(snap, Failure(true, false, None))
      case NoReply => Failed(snap, Failure(false, false, None))
    }
  }

  /** The guarded UPDATE that publishes. */
  function PublishUpdate(row: Row, snap: Snapshot, id: Id): Row {
    if row.state.Pending? && row.attempts == snap.attempts && row.markerId.None?
    then Row(Published, row.attempts, Some(id), Some(id))
    else row
  }

  predicate PublishedAs(row: Row, id: Id) {
    row.state.Published? && row.markerId == Some(id) && row.observed == Some(id)
  }

  /** The publisher's phase after its publish transaction; None means it succeeded. */
  function AfterCommit(row: Row, snap: Snapshot, id: Id, outcome: Outcome): Option<Phase> {
    if !outcome.Committed? then Some(Failed(snap, Failure(false, false, Some(id))))
    else if PublishedAs(PublishUpdate(row, snap, id), id) then None
    else Some(Failed(snap, Failure(true, false, Some(id))))
  }

  function CommitRow(row: Row, snap: Snapshot, id: Id, outcome: Outcome): Row {
    if outcome.RolledBack? then row else PublishUpdate(row, snap, id)
  }

  /** The guarded UPDATE that records one failure. */
  function FailureUpdate(row: Row, snap: Snapshot, quarantined: bool, observed: Option<Id>): Row {
    if row.state.Pending? && row.attempts == snap.attempts && row.markerId.None?
       && (row.observed.None? || observed.None? || row.observed == observed)
    then
      Row(if quarantined || row.attempts + 1 >= MAX_PUBLISH_ATTEMPTS then Quarantined else Pending,
          row.attempts + 1,
          row.markerId,
          if row.observed.Some? then row.observed else observed)
    else row
  }

  function QuarantineNow(snap: Snapshot, failure: Failure): bool {
    failure.terminal || snap.attempts + 1 >= MAX_PUBLISH_ATTEMPTS
  }

  function ObservedToRecord(snap: Snapshot, failure: Failure): Option<Id> {
    if failure.observed.Some? then failure.observed else snap.observed
  }

  /** The row after one attempt to record a failure. `collision` says that the observed identity
      is already owned by another boundary, which makes the first UPDATE violate uniqueness. */
  function RecordRow(row: Row, snap: Snapshot, failure: Failure, collision: bool, outcome: Outcome): Row {
    var observed := ObservedToRecord(snap, failure);
    if outcome.RolledBack? || (snap.observed.Some? && observed != snap.observed) then row
    else if !collision then FailureUpdate(row, snap, QuarantineNow(snap, failure), observed)
    else if QuarantineNow(snap, failure) && failure.dedupInvalid && snap.observed.None? && observed.Some?
    then FailureUpdate(row, snap, QuarantineNow(snap, failure), None)
    else row
  }

  // ----- invariants

  predicate RowOk(row: Row) {
    match row.state {
      case Pending => row.attempts < MAX_PUBLISH_ATTEMPTS && row.markerId.None?
      case Published =>
        row.attempts < MAX_PUBLISH_ATTEMPTS && row.markerId.Some? && row.observed == row.markerId
      case Quarantined => 0 < row.attempts <= MAX_PUBLISH_ATTEMPTS && row.markerId.None?
    }
  }

  /** A snapshot that still matches the attempt counter also still matches the observed identity. */
  predicate PhaseOk(row: Row, phase: Phase) {
    && (row.state.Pending? && row.attempts == phase.snap.attempts ==> row.observed == phase.snap.observed)
    && phase.snap.attempts <= row.attempts
    && (phase.Replied? ==>
          && ValidMarkerId(phase.id)
          && (phase.snap.observed.Some? ==> phase.snap.observed.value == phase.id))
  }

  /** What any step may do to the row: terminal states are absorbing, the observed identity is
      write-once, and the attempt counter moves by at most one. */
  predicate Evolves(before: Row, after: Row) {
    && (!before.state.Pending? ==> after == before)
    && (before.observed.Some? ==> after.observed == before.observed)
    && before.attempts <= after.attempts <= MAX_PUBLISH_ATTEMPTS
  }

  /** A row change made through either UPDATE keeps every other publisher's snapshot usable. */
  lemma PhaseSurvives(before: Row, after: Row, phase: Phase)
    requires PhaseOk(before, phase) && Evolves(before, after)
    requires after == before || !after.state.Pending? || after.attempts == before.attempts + 1
    ensures PhaseOk(after, phase)
  {
  }

  lemma CommitKeeps(row: Row, snap: Snapshot, id: Id, outcome: Outcome)
    requires RowOk(row) && PhaseOk(row, Replied(snap, id))
    ensures var after := CommitRow(row, snap, id, outcome);
            && RowOk(after) && Evolves(row, after) && after.attempts == row.attempts
            && (after == row || PublishedAs(after, id))
  {
  }

  lemma RecordKeeps(row: Row, snap: Snapshot, failure: Failure, collision: bool, outcome: Outcome)
    requires RowOk(row) && PhaseOk(row, Failed(snap, failure))
    ensures var after := RecordRow(row, snap, failure, collision, outcome);
            && RowOk(after) && Evolves(row, after)
            && (after == row || (after.attempts == row.attempts + 1 && !after.state.Published?))
  {
  }

  // ----- what the decisions mean

  /** A publisher proceeds with the identifier it was answered if and only if that is a real one and agrees
      with what it observed before. Only the lack of a reply is a transient failure. */
  lemma RepliesAreClassified(snap: Snapshot, reply: Reply)
    ensures var phase := AfterReply(snap, reply);
            && phase.snap == snap && !phase.Fetched?
            && (phase.Replied? <==>
                  && reply.MarkerId? && reply.id >= 0x1_0000_0000_0000_0000
                  && (snap.observed.None? || snap.observed.value == reply.id))
            && (phase.Replied? ==> phase.id == reply.id)
            && (phase.Failed? ==> (phase.failure.terminal <==> !reply.NoReply?))
            && (phase.Failed? ==>
                  (phase.failure.dedupInvalid <==>
                     reply.InvalidDedup? || (reply.MarkerId? && reply.id >= 0x1_0000_0000_0000_0000)))
            && (reply.InvalidDedup? ==>
                  phase.failure.observed ==
                  if snap.observed.Some? then snap.observed
                  else if reply.candidate.Some? && reply.candidate.value >= 0x1_0000_0000_0000_0000 then reply.candidate
                  else None)
            && (phase.Failed? && !reply.InvalidDedup? ==> phase.failure.observed.None?)
  {
  }

  /** A publish transaction succeeds if and only if its reply is known and the row was still the publisher's to
      publish or was already published under that identifier. It fails for good exactly when the reply is
      known, and always remembers the identifier. */
  lemma PublishSucceedsExactly(row: Row, snap: Snapshot, id: Id, outcome: Outcome)
    ensures var next := AfterCommit(row, snap, id, outcome);
            && (next.None? <==>
                  && outcome.Committed?
                  && (PublishedAs(row, id)
                      || (row.state.Pending? && row.attempts == snap.attempts && row.markerId.None?)))
            && (next.Some? ==> next.value == Failed(snap, Failure(outcome.Committed?, false, Some(id))))
  {
  }

  /** The row is published if and only if the transaction took effect on a pending row at the publisher's own
      attempt, or it was published before. */
  lemma PublishTakesEffectExactly(row: Row, snap: Snapshot, id: Id, outcome: Outcome)
    requires row.state.Pending? && row.markerId.None?
    ensures PublishedAs(CommitRow(row, snap, id, outcome), id) <==>
            !outcome.RolledBack? && row.attempts == snap.attempts
    ensures CommitRow(row, snap, id, outcome) != row ==> PublishedAs(CommitRow(row, snap, id, outcome), id)
  {
  }

  /** The row is the one the publisher saw, and nothing it observed contradicts it. */
  predicate Recordable(row: Row, snap: Snapshot, observed: Option<Id>) {
    && row.state.Pending? && row.attempts == snap.attempts && row.markerId.None?
    && (snap.observed.Some? ==> observed == snap.observed)
    && (row.observed.None? || observed.None? || row.observed == observed)
  }

  /** A failure is recorded if and only if its transaction takes effect on such a row. Recording it counts one
      attempt, keeps the first observed identity, and quarantines exactly when the failure is terminal or the
      fifth. */
  lemma FailureIsRecordedExactly(row: Row, snap: Snapshot, failure: Failure, outcome: Outcome)
    ensures var after := RecordRow(row, snap, failure, false, outcome);
            var reported := if failure.observed.Some? then failure.observed else snap.observed;
            && (after != row <==> !outcome.RolledBack? && Recordable(row, snap, reported))
            && (after != row ==>
                  && after.attempts == row.attempts + 1 && after.markerId.None? && !after.state.Published?
                  && (after.state.Quarantined? <==> failure.terminal || row.attempts + 1 >= 5)
                  && after.observed == if row.observed.Some? then row.observed else reported)
  {
  }

  /** A publisher that got no reply leaves the row pending, one attempt further, until the fifth. */
  lemma TransientFailureStaysPending(row: Row, outcome: Outcome)
    requires row.state.Pending? && row.markerId.None? && row.attempts < 5 && !outcome.RolledBack?
    ensures var snap := Snapshot(row.attempts, row.observed);
            RecordRow(row, snap, AfterReply(snap, NoReply).failure, false, outcome)
            == Row(if row.attempts < 4 then Pending else Quarantined, row.attempts + 1, None, row.observed)
  {
  }

  /** When the observed identity belongs to another boundary, only a terminal or fifth failure from an invalid
      record, by a publisher that had observed nothing, is recorded, and without that identity. */
  lemma CollisionIsRecordedExactly(row: Row, snap: Snapshot, failure: Failure, outcome: Outcome)
    ensures var after := RecordRow(row, snap, failure, true, outcome);
            && (after != row ==>
                  && !outcome.RolledBack? && failure.dedupInvalid && snap.observed.None? && failure.observed.Some?
                  && after == Row(Quarantined, row.attempts + 1, row.markerId, row.observed))
            && (!outcome.RolledBack? && failure.dedupInvalid && failure.terminal && failure.observed.Some?
                && snap.observed.None? && row.state.Pending? && row.attempts == snap.attempts && row.markerId.None? ==>
                  after != row)
  {
  }
}
