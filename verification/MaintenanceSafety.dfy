/** Safety of the maintenance protocol over every run: runtime inserts and schema changes exclude
    each other, the ledger stays an exact prefix, and the gate reopens only on proved convergence. */
module MaintenanceSafety {
  import opened Options
  import opened MigrationPlan
  import opened Maintenance

  // ----- invariants

  predicate Increasing(rows: seq<GateRow>) {
    forall i, j :: 0 <= i < j < |rows| ==> rows[i].generation < rows[j].generation
  }

  predicate IsMutation(statement: Statement) {
    !statement.AppendGate?
  }

  /** The statement in flight is the one the phase sends. */
  ghost predicate IssuedOk(s: State, r: MigrationRun) {
    r.issued.Some? ==>
      match r.issued.value {
        case AppendGate(row) =>
          && (if row.blocked then r.phase.Closing? else r.phase.Opening?)
          && (if r.landed then s.gate != [] && Latest(s.gate) == row else row.generation == Generation(s.gate) + 1)
        case RunBody(m) => r.phase.Migrating? && r.phase.k < |r.release.files| && m == r.release.files[r.phase.k]
        case RecordFile(m) => r.phase.Recording? && r.phase.k < |r.release.files| && m == r.release.files[r.phase.k]
        case RunBackfill(_) => r.phase.Backfilling?
        case RecordBackfill(_) => r.phase.RecordingBackfill?
      }
  }

  /** How far the ledger has come in each phase. */
  ghost predicate ProgressOk(s: State, r: MigrationRun) {
    var files := r.release.files;
    match r.phase {
      case Closing => true
      case Draining => !GateOpen(s.gate)
      case Planning => s.drained
      case Migrating(k) => s.drained && k <= |files| && s.ledger == files[..k]
      case Recording(k) =>
        && s.drained && k < |files|
        && s.ledger == if r.issued.Some? && r.landed then files[..k + 1] else files[..k]
      case CheckingRecord(k) => s.drained && k < |files| && s.ledger == files[..k + 1]
      case Backfilling(_) => s.drained && s.ledger == files
      case RecordingBackfill(_) => s.drained && s.ledger == files
      case Verifying => s.drained && s.ledger == files
      case Opening => Proved(s, r.release) && (!(r.issued.Some? && r.landed) ==> s.drained)
      case Ended => true
    }
  }

  /** Every file and every backfill of the release is recorded. */
  ghost predicate Proved(s: State, release: Release) {
    s.ledger == release.files && forall b <- release.backfills :: RecordedAs(s, b)
  }

  ghost predicate StartsOk(s: State) {
    forall start <- s.starts ::
      start.0.version == |start.1| + 1 && Contiguous(start.1) && start.1 <= s.ledger
  }

  ghost predicate Inv(s: State) {
    && Increasing(s.gate)
    && Contiguous(s.ledger)
    && StartsOk(s)
    && (s.drained ==> !GateOpen(s.gate) && forall q <- s.queries :: s.queries[q].Registered?)
    && (GateOpen(s.gate) ==> s.proved.Some? && Proved(s, s.proved.value))
    && (s.run.Some? ==> ReleaseOk(s.run.value.release) && IssuedOk(s, s.run.value) && ProgressOk(s, s.run.value))
  }

  lemma {:induction false} LatestIsLast(rows: seq<GateRow>)
    requires rows != [] && Increasing(rows)
    ensures Latest(rows) == rows[|rows| - 1]
  {
    if |rows| > 1 { LatestIsLast(rows[1..]); }
  }

  /** Appending a row of the next generation makes it the latest. */
  lemma AppendBecomesLatest(rows: seq<GateRow>, row: GateRow)
    requires Increasing(rows) && row.generation == Generation(rows) + 1
    ensures Increasing(rows + [row]) && Latest(rows + [row]) == row
  {
    if rows != [] { LatestIsLast(rows); }
    LatestIsLast(rows + [row]);
  }

  // ----- each step keeps the invariant

  lemma LandKeeps(s: State)
    requires Inv(s) && Enabled(s, Lands)
    ensures Inv(Apply(s, Lands))
  {
    var r := s.run.value;
    match r.issued.value {
      case AppendGate(row) => AppendBecomesLatest(s.gate, row);
      case RecordFile(m) =>
        var k := r.phase.k;
        assert r.release.files[..k + 1] == r.release.files[..k] + [m];
      case _ =>
    }
  }

  lemma IssueKeeps(s: State)
    requires Inv(s) && Enabled(s, Issue)
    ensures Inv(Apply(s, Issue))
  {
  }

  lemma PlanKeeps(s: State)
    requires Inv(s) && Enabled(s, ReadPlan)
    ensures Inv(Apply(s, ReadPlan))
  {
    PlanOfOrderedLedger(s.run.value.release.files, s.ledger);
  }

  lemma VerifyKeeps(s: State)
    requires Inv(s) && Enabled(s, VerifyConvergence)
    ensures Inv(Apply(s, VerifyConvergence))
  {
  }

  lemma QueryKeeps(s: State, step: Step)
    requires Inv(s) && Enabled(s, step)
    requires IsQuery(step)
    ensures Inv(Apply(s, step))
  {
  }

  lemma ReplyKeeps(s: State)
    requires Inv(s) && Enabled(s, Reply)
    ensures Inv(Apply(s, Reply))
  {
  }

  lemma CheckKeeps(s: State, step: Step)
    requires Inv(s) && Enabled(s, step)
    requires step.CountZero? || step.CheckRecord? || step.FilesDone? || step.SkipBackfill?
    ensures Inv(Apply(s, step))
  {
    if step.FilesDone? {
      assert s.run.value.release.files[..s.run.value.phase.k] == s.run.value.release.files;
    }
  }

  /** Beginning, giving up, killing and recovering a run touch neither gate nor ledger. */
  lemma HandoverKeeps(s: State, step: Step)
    requires Inv(s) && Enabled(s, step)
    requires IsHandover(step)
    ensures Inv(Apply(s, step))
  {
  }

  lemma StepGrows(s: State, step: Step)
    requires Enabled(s, step)
    ensures s.gate <= Apply(s, step).gate && s.ledger <= Apply(s, step).ledger
  {
  }

  predicate IsQuery(step: Step) {
    step.QueryRegisters? || step.QueryEvaluates? || step.QueryCommits? || step.QueryEnds?
  }

  predicate IsHandover(step: Step) {
    step.Begin? || step.GiveUpOwner? || step.Kill? || step.StatementVanishes? || step.Recover?
  }

  lemma RunStepKeeps(s: State, step: Step)
    requires Inv(s) && Enabled(s, step) && !IsQuery(step) && !IsHandover(step)
    ensures Inv(Apply(s, step))
  {
    match step {
      case Lands => LandKeeps(s);
      case Issue => IssueKeeps(s);
      case Reply => ReplyKeeps(s);
      case ReadPlan => PlanKeeps(s);
      case VerifyConvergence => VerifyKeeps(s);
      case _ => CheckKeeps(s, step);
    }
  }

  lemma StepKeeps(s: State, step: Step)
    requires Inv(s) && Enabled(s, step)
    ensures Inv(Apply(s, step)) && s.gate <= Apply(s, step).gate && s.ledger <= Apply(s, step).ledger
  {
    StepGrows(s, step);
    if IsQuery(step) {
      QueryKeeps(s, step);
    } else if IsHandover(step) {
      HandoverKeeps(s, step);
    } else {
      RunStepKeeps(s, step);
    }
  }

  // ----- whole runs

  function Fresh(): State {
    State([], map[], [], {}, None, false, [], None)
  }

  ghost predicate Run(s: State, steps: seq<Step>)
    decreases |steps|
  {
    steps == [] || (Enabled(s, steps[0]) && Run(Apply(s, steps[0]), steps[1..]))
  }

  ghost function After(s: State, steps: seq<Step>): State
    requires Run(s, steps)
    decreases |steps|
  {
    if steps == [] then s else After(Apply(s, steps[0]), steps[1..])
  }

  lemma {:induction false} RunKeeps(s: State, steps: seq<Step>)
    requires Inv(s) && Run(s, steps)
    ensures Inv(After(s, steps)) && s.gate <= After(s, steps).gate && s.ledger <= After(s, steps).ledger
    decreases |steps|
  {
    if steps != [] {
      StepKeeps(s, steps[0]);
      RunKeeps(Apply(s, steps[0]), steps[1..]);
    }
  }

  /** Gate exclusion. Between a successful drain and the landing of the next opening row no runtime
      INSERT can commit, however the steps interleave and whichever runs crash; and every schema or
      data mutation of a run is in flight only inside such an interval. */
  lemma DrainExcludesCommits(steps: seq<Step>, q: nat)
    requires Run(Fresh(), steps)
    ensures After(Fresh(), steps).drained ==> !Enabled(After(Fresh(), steps), QueryCommits(q))
    ensures var s := After(Fresh(), steps);
            s.run.Some? && s.run.value.issued.Some? && IsMutation(s.run.value.issued.value) ==> s.drained
  {
    RunKeeps(Fresh(), steps);
  }

  /** Over every sequence of runs killed anywhere: the ledger is numbered without gaps and only grows,
      body k+1 starts only when exactly files 1..k are recorded, and gate generations strictly increase. */
  lemma LedgerAndGateAreMonotone(before: seq<Step>, after: seq<Step>)
    requires Run(Fresh(), before) && Run(After(Fresh(), before), after)
    ensures var s, t := After(Fresh(), before), After(After(Fresh(), before), after);
            && Contiguous(t.ledger) && s.ledger <= t.ledger
            && (forall start <- t.starts :: start.1 <= t.ledger && start.0.version == |start.1| + 1)
            && s.gate <= t.gate
            && (forall i, j :: 0 <= i < j < |t.gate| ==> t.gate[i].generation < t.gate[j].generation)
  {
    RunKeeps(Fresh(), before);
    RunKeeps(After(Fresh(), before), after);
  }

  /** A run past its plan works on exactly its own files: the ledger is a prefix of its release. */
  lemma LedgerIsPrefixOfRunningRelease(steps: seq<Step>)
    requires Run(Fresh(), steps)
    ensures var s := After(Fresh(), steps);
            s.run.Some? && !s.run.value.phase.Closing? && !s.run.value.phase.Draining?
            && !s.run.value.phase.Planning? && !s.run.value.phase.Ended? ==>
              s.ledger <= s.run.value.release.files
  {
    RunKeeps(Fresh(), steps);
  }

  /** The gate is open only while every file and backfill of a release that a run verified is
      recorded, and nothing else is in the ledger. */
  lemma OpenMeansConverged(steps: seq<Step>)
    requires Run(Fresh(), steps) && GateOpen(After(Fresh(), steps).gate)
    ensures var s := After(Fresh(), steps);
            && s.proved.Some?
            && s.ledger == s.proved.value.files
            && (forall b <- s.proved.value.backfills :: RecordedAs(s, b))
            && !s.drained
  {
    RunKeeps(Fresh(), steps);
  }

  /** The row a run appended is what the gate reads back, so its durability check never misfires. */
  lemma AppendedRowReadsBack(steps: seq<Step>)
    requires Run(Fresh(), steps) && Enabled(After(Fresh(), steps), Reply)
    requires After(Fresh(), steps).run.value.issued.value.AppendGate?
    ensures var s := After(Fresh(), steps);
            s.gate != [] && Latest(s.gate) == s.run.value.issued.value.row
  {
    RunKeeps(Fresh(), steps);
  }
}
