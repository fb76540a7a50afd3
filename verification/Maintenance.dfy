/** ClickHouse maintenance: migration runs that close the writer gate, drain runtime queries, migrate,
    backfill, prove convergence and reopen; interleaved with runtime INSERT queries. A run may be
    killed at any point, leaving its last statement to land later or never. No advisory lock is
    assumed; runs exclude each other only through the durable owner table. */
module Maintenance {
  import opened Options
  import opened MigrationPlan

  const MAX_GENERATION: nat := 0xFFFF_FFFF_FFFF_FFFF

  // ----- the gate

  datatype GateRow = GateRow(generation: nat, blocked: bool)

  /** argMax(writes_blocked, generation). */
  function Latest(rows: seq<GateRow>): GateRow
    requires rows != []
  {
    if |rows| == 1 then rows[0]
    else
      var rest := Latest(rows[1..]);
      if rest.generation > rows[0].generation then rest else rows[0]
  }

  /** The condition inside the runtime INSERT: it throws when there is no row or the latest blocks. */
  predicate GateOpen(rows: seq<GateRow>) {
    rows != [] && !Latest(rows).blocked
  }

  function Generation(rows: seq<GateRow>): nat {
    if rows == [] then 0 else Latest(rows).generation
  }

  // ----- one run

  datatype Backfill = Backfill(name: string, checksum: string)

  datatype Release = Release(files: seq<Migration>, backfills: seq<Backfill>)

  datatype Statement =
    | AppendGate(row: GateRow)
    | RunBody(body: Migration)
    | RecordFile(file: Migration)
    | RunBackfill(backfill: Backfill)
    | RecordBackfill(recorded: Backfill)

  /** Where a run stands; `k` and `j` index the next file and the next backfill. */
  datatype Phase =
    | Closing
    | Draining
    | Planning
    | Migrating(k: nat)
    | Recording(k: nat)
    | CheckingRecord(k: nat)
    | Backfilling(j: nat)
    | RecordingBackfill(j: nat)
    | Verifying
    | Opening
    | Ended

  /** `issued` is the statement in flight; `landed` says that the server has executed it. */
  datatype MigrationRun = MigrationRun(release: Release, phase: Phase, alive: bool, issued: Option<Statement>,
                                       landed: bool)

  datatype Query = Registered | Passed | Committed

  /** `drained` is true from a successful drain until an opening row lands. `starts` records each
      migration body with the ledger it started from; `proved` the release that the last opening proved converged. */
  datatype State = State(
    gate: seq<GateRow>,
    queries: map<nat, Query>,
    ledger: seq<Migration>,
    backfilled: set<Backfill>,
    run: Option<MigrationRun>,
    drained: bool,
    starts: seq<(Migration, seq<Migration>)>,
    proved: Option<Release>
  )

  predicate ReleaseOk(r: Release) {
    Contiguous(r.files) && DistinctNames(r.files)
  }

  /** The next gate row; generations are 64-bit and appending stops when they are exhausted. */
  function GateAppend(s: State, blocked: bool): Option<Statement> {
    if Generation(s.gate) >= MAX_GENERATION then None
    else Some(AppendGate(GateRow(Generation(s.gate) + 1, blocked)))
  }

  /** The statement a run sends next, if its phase sends one. */
  function NextStatement(s: State, r: MigrationRun): Option<Statement> {
    match r.phase {
      case Closing => GateAppend(s, true)
      case Migrating(k) => if k < |r.release.files| then Some(RunBody(r.release.files[k])) else None
      case Recording(k) => if k < |r.release.files| then Some(RecordFile(r.release.files[k])) else None
      case Backfilling(j) =>
        if j < |r.release.backfills| && Unrecorded(s, r.release.backfills[j].name)
        then Some(RunBackfill(r.release.backfills[j])) else None
      case RecordingBackfill(j) =>
        if j < |r.release.backfills| then Some(RecordBackfill(r.release.backfills[j])) else None
      case Opening => GateAppend(s, false)
      case _ => None
    }
  }

  /** The phase once the statement's reply is known. */
  function PhaseAfterReply(p: Phase): Phase {
    match p {
      case Closing => Draining
      case Migrating(k) => Recording(k)
      case Recording(k) => CheckingRecord(k)
      case Backfilling(j) => RecordingBackfill(j)
      case RecordingBackfill(j) => Backfilling(j)
      case Opening => Ended
      case _ => p
    }
  }

  /** No checksum is recorded under the name. */
  predicate Unrecorded(s: State, name: string) {
    forall b <- s.backfilled :: b.name != name
  }

  /** Exactly one checksum is recorded under the name, and it is this one. */
  predicate RecordedAs(s: State, backfill: Backfill) {
    backfill in s.backfilled && forall b <- s.backfilled :: b.name == backfill.name ==> b == backfill
  }

  predicate Converged(s: State, r: Release) {
    && Plan(r.files, s.ledger) == Some([])
    && forall b <- r.backfills :: RecordedAs(s, b)
  }

  function Land(s: State, statement: Statement, release: Release): State {
    match statement {
      case AppendGate(row) =>
        if row.blocked then s.(gate := s.gate + [row])
        else s.(gate := s.gate + [row], drained := false, proved := Some(release))
      case RunBody(m) => s
      case RecordFile(m) => s.(ledger := s.ledger + [m])
      case RunBackfill(_) => s
      case RecordBackfill(b) => s.(backfilled := s.backfilled + {b})
    }
  }

  // ----- steps

  datatype Step =
    | QueryRegisters(q: nat)
    | QueryEvaluates(q: nat)
    | QueryCommits(q: nat)
    | QueryEnds(q: nat)
    | Begin(release: Release)
    | Issue
    | Lands
    | Reply
    | CountZero
    | ReadPlan
    | CheckRecord
    | FilesDone
    | SkipBackfill
    | VerifyConvergence
    | GiveUpOwner
    | Kill
    | StatementVanishes
    | Recover

  predicate RunIs(s: State, p: Phase) {
    s.run.Some? && s.run.value.alive && s.run.value.issued.None? && s.run.value.phase == p
  }

  predicate Enabled(s: State, step: Step) {
    match step {
      case QueryRegisters(q) => q !in s.queries
      case QueryEvaluates(q) => q in s.queries && s.queries[q].Registered?
      case QueryCommits(q) => q in s.queries && s.queries[q].Passed?
      case QueryEnds(q) => q in s.queries
      case Begin(release) => s.run.None? && ReleaseOk(release)
      case Issue =>
        && s.run.Some? && s.run.value.alive && s.run.value.issued.None?
        && NextStatement(s, s.run.value).Some?
      case Lands => s.run.Some? && s.run.value.issued.Some? && !s.run.value.landed
      case Reply => s.run.Some? && s.run.value.alive && s.run.value.issued.Some? && s.run.value.landed
      case CountZero => RunIs(s, Draining) && s.queries == map[]
      case ReadPlan => RunIs(s, Planning)
      case CheckRecord => s.run.Some? && s.run.value.phase.CheckingRecord? && RunIs(s, s.run.value.phase)
      case FilesDone =>
        && s.run.Some? && s.run.value.phase.Migrating? && RunIs(s, s.run.value.phase)
        && s.run.value.phase.k >= |s.run.value.release.files|
      case SkipBackfill =>
        && s.run.Some? && s.run.value.phase.Backfilling? && RunIs(s, s.run.value.phase)
        && var j := s.run.value.phase.j;
           j >= |s.run.value.release.backfills| || RecordedAs(s, s.run.value.release.backfills[j])
      case VerifyConvergence => RunIs(s, Verifying) && Converged(s, s.run.value.release)
      case GiveUpOwner => s.run.Some? && s.run.value.alive
      case Kill => s.run.Some? && s.run.value.alive
      case StatementVanishes => s.run.Some? && !s.run.value.alive && s.run.value.issued.Some? && !s.run.value.landed
      case Recover => s.run.Some? && !s.run.value.alive && (s.run.value.issued.None? || s.run.value.landed)
    }
  }

  function To(s: State, p: Phase): State
    requires s.run.Some?
  {
    s.(run := Some(s.run.value.(phase := p)))
  }

  function Apply(s: State, step: Step): State
    requires Enabled(s, step)
  {
    match step {
      case QueryRegisters(q) => s.(queries := s.queries[q := Registered])
      case QueryEvaluates(q) =>
        s.(queries := if GateOpen(s.gate) then s.queries[q := Passed] else s.queries - {q})
      case QueryCommits(q) => s.(queries := s.queries[q := Committed])
      case QueryEnds(q) => s.(queries := s.queries - {q})
      case Begin(release) => s.(run := Some(MigrationRun(release, Closing, true, None, false)))
      case Issue =>
        var statement := NextStatement(s, s.run.value).value;
        s.(run := Some(s.run.value.(issued := Some(statement), landed := false)),
        starts := if statement.RunBody? then s.starts + [(statement.body, s.ledger)] else s.starts)
      case Lands =>
        Land(s, s.run.value.issued.value, s.run.value.release).(run := Some(s.run.value.(landed := true)))
      case Reply =>
        s.(run := Some(s.run.value.(issued := None, landed := false, phase := PhaseAfterReply(s.run.value.phase))))
      case CountZero => To(s, Planning).(drained := true)
      case ReadPlan =>
        var plan := Plan(s.run.value.release.files, s.ledger);
        // A drifted ledger fails the run, which stops here until it is released.
        if plan.None? then To(s, Ended) else To(s, Migrating(|s.run.value.release.files| - |plan.value|))
      case CheckRecord =>
        var k := s.run.value.phase.k;
        if Plan(s.run.value.release.files, s.ledger).Some? && |s.ledger| == k + 1
        then To(s, Migrating(k + 1)) else To(s, Ended)
      case FilesDone => To(s, Backfilling(0))
      case SkipBackfill =>
        var j := s.run.value.phase.j;
        To(s, if j >= |s.run.value.release.backfills| then Verifying else Backfilling(j + 1))
      case VerifyConvergence => To(s, Opening)
      case GiveUpOwner => s.(run := None)
      case Kill => s.(run := Some(s.run.value.(alive := false)))
      case StatementVanishes => s.(run := Some(s.run.value.(issued := None)))
      case Recover => s.(run := None)
    }
  }
}
