/** Maintenance can complete: for every release, a run from a fresh database closes the gate, applies every file
    once in order, records every backfill, proves convergence and opens the gate, and runtime inserts can then
    commit. */
module MaintenanceProgress {
  import opened Options
  import opened MigrationPlan
  import opened Maintenance
  import Safety = MaintenanceSafety

  ghost predicate Leads(s: State, t: State) {
    exists steps :: Safety.Run(s, steps) && Safety.After(s, steps) == t
  }

  lemma LeadsByStep(s: State, step: Step, next: State, t: State)
    requires Enabled(s, step) && Apply(s, step) == next && Leads(next, t)
    ensures Leads(s, t)
  {
    var rest :| Safety.Run(next, rest) && Safety.After(next, rest) == t;
    assert ([step] + rest)[1..] == rest;
    assert Safety.Run(s, [step] + rest) && Safety.After(s, [step] + rest) == t;
  }

  lemma LeadsToItself(s: State)
    ensures Leads(s, s)
  {
    assert Safety.Run(s, []) && Safety.After(s, []) == s;
  }

  /** A run at rest in a phase, with no runtime query about. */
  function Resting(r: Release, p: Phase, gate: seq<GateRow>, ledger: seq<Migration>, done: set<Backfill>, drained: bool,
                   starts: seq<(Migration, seq<Migration>)>, proved: Option<Release>): State {
    State(gate, map[], ledger, done, Some(MigrationRun(r, p, true, None, false)), drained, starts, proved)
  }

  /** One statement sent, executed and answered. */
  function Executed(s: State, statement: Statement): State
    requires s.run.Some?
  {
    var started := if statement.RunBody? then s.(starts := s.starts + [(statement.body, s.ledger)]) else s;
    Land(started, statement,
         s.run.value.release).(run := Some(s.run.value.(phase := PhaseAfterReply(s.run.value.phase))))
  }

  lemma Executing(s: State, statement: Statement, t: State)
    requires s.run.Some? && s.run.value.alive && s.run.value.issued.None? && !s.run.value.landed
    requires NextStatement(s, s.run.value) == Some(statement) && Leads(Executed(s, statement), t)
    ensures Leads(s, t)
  {
    var run := s.run.value;
    var s1 := Apply(s, Issue);
    var s2 := Apply(s1, Lands);
    assert s2.run == Some(run.(issued := Some(statement), landed := true));
    LeadsByStep(s2, Reply, Executed(s, statement), t);
    LeadsByStep(s1, Lands, s2, t);
    LeadsByStep(s, Issue, s1, t);
  }

  const CLOSED: seq<GateRow> := [GateRow(1, true)]
  const OPENED: seq<GateRow> := [GateRow(1, true), GateRow(2, false)]

  /** The files applied so far, each with the ledger it started from. */
  function Starts(files: seq<Migration>, k: nat): seq<(Migration, seq<Migration>)>
    requires k <= |files|
  {
    seq(k, i requires 0 <= i < k => (files[i], files[..i]))
  }

  function Migrated(r: Release, k: nat): State
    requires k <= |r.files|
  {
    Resting(r, Migrating(k), CLOSED, r.files[..k], {}, true, Starts(r.files, k), None)
  }

  lemma Closing(r: Release, t: State)
    requires ReleaseOk(r) && Leads(Migrated(r, 0), t)
    ensures Leads(Safety.Fresh(), t)
  {
    var s1 := Resting(r, Planning, CLOSED, [], {}, true, [], None);
    PlanOfOrderedLedger(r.files, []);
    assert Starts(r.files, 0) == [] && r.files[..0] == [];
    LeadsByStep(s1, ReadPlan, Migrated(r, 0), t);
    var s2 := Resting(r, Draining, CLOSED, [], {}, false, [], None);
    LeadsByStep(s2, CountZero, s1, t);
    var s3 := Resting(r, Phase.Closing, [], [], {}, false, [], None);
    assert [] + [GateRow(1, true)] == CLOSED;
    assert Executed(s3, AppendGate(GateRow(1, true))) == s2;
    Executing(s3, AppendGate(GateRow(1, true)), t);
    LeadsByStep(Safety.Fresh(), Begin(r), s3, t);
  }

  lemma ApplyingFile(r: Release, k: nat, t: State)
    requires ReleaseOk(r) && k < |r.files| && Leads(Migrated(r, k + 1), t)
    ensures Leads(Migrated(r, k), t)
  {
    var m, before, after := r.files[k], r.files[..k], r.files[..k + 1];
    var starts := Starts(r.files, k + 1);
    assert after == before + [m] && starts == Starts(r.files, k) + [(m, before)];
    var s1 := Resting(r, CheckingRecord(k), CLOSED, after, {}, true, starts, None);
    assert Contiguous(after);
    PlanOfOrderedLedger(r.files, after);
    LeadsByStep(s1, CheckRecord, Migrated(r, k + 1), t);
    var s2 := Resting(r, Recording(k), CLOSED, before, {}, true, starts, None);
    assert Executed(s2, RecordFile(m)) == s1;
    Executing(s2, RecordFile(m), t);
    assert Executed(Migrated(r, k), RunBody(m)) == s2;
    Executing(Migrated(r, k), RunBody(m), t);
  }

  lemma {:induction false} ApplyingAll(r: Release, k: nat, t: State)
    requires ReleaseOk(r) && k <= |r.files| && Leads(Migrated(r, |r.files|), t)
    ensures Leads(Migrated(r, k), t)
    decreases |r.files| - k
  {
    if k < |r.files| {
      ApplyingAll(r, k + 1, t);
      ApplyingFile(r, k, t);
    }
  }

  // ----- backfills

  predicate DistinctBackfills(r: Release) {
    forall i, j :: 0 <= i < j < |r.backfills| ==> r.backfills[i].name != r.backfills[j].name
  }

  function Done(r: Release, j: nat): set<Backfill>
    requires j <= |r.backfills|
  {
    set i | 0 <= i < j :: r.backfills[i]
  }

  function Filled(r: Release, j: nat): State
    requires j <= |r.backfills|
  {
    Resting(r, Backfilling(j), CLOSED, r.files, Done(r, j), true, Starts(r.files, |r.files|), None)
  }

  lemma BackfillingOne(r: Release, j: nat, t: State)
    requires DistinctBackfills(r) && j < |r.backfills| && Leads(Filled(r, j + 1), t)
    ensures Leads(Filled(r, j), t)
  {
    var b, starts := r.backfills[j], Starts(r.files, |r.files|);
    assert Done(r, j + 1) == Done(r, j) + {b};
    var s1 := Resting(r, Backfilling(j), CLOSED, r.files, Done(r, j + 1), true, starts, None);
    assert RecordedAs(s1, b);
    LeadsByStep(s1, SkipBackfill, Filled(r, j + 1), t);
    var s2 := Resting(r, RecordingBackfill(j), CLOSED, r.files, Done(r, j), true, starts, None);
    assert Executed(s2, RecordBackfill(b)) == s1;
    Executing(s2, RecordBackfill(b), t);
    assert Unrecorded(Filled(r, j), b.name);
    assert Executed(Filled(r, j), RunBackfill(b)) == s2;
    Executing(Filled(r, j), RunBackfill(b), t);
  }

  lemma {:induction false} BackfillingAll(r: Release, j: nat, t: State)
    requires DistinctBackfills(r) && j <= |r.backfills| && Leads(Filled(r, |r.backfills|), t)
    ensures Leads(Filled(r, j), t)
    decreases |r.backfills| - j
  {
    if j < |r.backfills| {
      BackfillingAll(r, j + 1, t);
      BackfillingOne(r, j, t);
    }
  }

  // ----- convergence and reopening

  function Completed(r: Release): State {
    Resting(r, Ended, OPENED, r.files, Done(r, |r.backfills|), false, Starts(r.files, |r.files|), Some(r))
  }

  lemma Opening(r: Release, t: State)
    requires ReleaseOk(r) && DistinctBackfills(r) && Leads(Completed(r), t)
    ensures Leads(Filled(r, |r.backfills|), t)
  {
    var done, starts := Done(r, |r.backfills|), Starts(r.files, |r.files|);
    var s1 := Resting(r, Phase.Opening, CLOSED, r.files, done, true, starts, None);
    assert CLOSED + [GateRow(2, false)] == OPENED;
    assert Executed(s1, AppendGate(GateRow(2, false))) == Completed(r);
    Executing(s1, AppendGate(GateRow(2, false)), t);
    var s2 := Resting(r, Verifying, CLOSED, r.files, done, true, starts, None);
    PlanOfOrderedLedger(r.files, r.files);
    forall b | b in r.backfills ensures RecordedAs(s2, b) {
      var j :| 0 <= j < |r.backfills| && r.backfills[j] == b;
    }
    LeadsByStep(s2, VerifyConvergence, s1, t);
    LeadsByStep(Filled(r, |r.backfills|), SkipBackfill, s2, t);
  }

  /** For every release with distinct backfill names, some run from a fresh database ends with exactly its files in
      the ledger, each body started once from the files before it, all its backfills recorded, and the gate
      open; a runtime insert that comes then can commit. */
  lemma MaintenanceCanComplete(r: Release, q: nat) returns (steps: seq<Step>)
    requires ReleaseOk(r) && DistinctBackfills(r)
    ensures Safety.Run(Safety.Fresh(), steps)
    ensures var s := Safety.After(Safety.Fresh(), steps);
            && s.ledger == r.files && s.backfilled == (set b | b in r.backfills) && GateOpen(s.gate)
            && s.starts == seq(|r.files|, i requires 0 <= i < |r.files| => (r.files[i], r.files[..i]))
            && Enabled(s, QueryRegisters(q)) && Enabled(Apply(s, QueryRegisters(q)), QueryEvaluates(q))
            && Enabled(Apply(Apply(s, QueryRegisters(q)), QueryEvaluates(q)), QueryCommits(q))
  {
    var t := Completed(r);
    LeadsToItself(t);
    Opening(r, t);
    BackfillingAll(r, 0, t);
    assert r.files[..|r.files|] == r.files && Done(r, 0) == {};
    LeadsByStep(Migrated(r, |r.files|), FilesDone, Filled(r, 0), t);
    ApplyingAll(r, 0, t);
    Closing(r, t);
    steps :| Safety.Run(Safety.Fresh(), steps) && Safety.After(Safety.Fresh(), steps) == t;
    assert t.backfilled == set b | b in r.backfills;
    assert Latest(OPENED) == GateRow(2, false);
  }

  // ----- after a crash

  /** A run that was killed can be cleared away, whether its last statement landed or not, and another run can
      then begin. */
  lemma KilledRunCanBeReplaced(s: State, r: Release) returns (steps: seq<Step>)
    requires s.run.Some? && !s.run.value.alive && ReleaseOk(r)
    ensures Safety.Run(s, steps)
    ensures var s' := Safety.After(s, steps);
            && s' == s.(run := Some(MigrationRun(r, Phase.Closing, true, None, false)))
  {
    var t := s.(run := Some(MigrationRun(r, Phase.Closing, true, None, false)));
    LeadsToItself(t);
    LeadsByStep(s.(run := None), Begin(r), t, t);
    if s.run.value.issued.Some? && !s.run.value.landed {
      var s1 := Apply(s, StatementVanishes);
      LeadsByStep(s1, Recover, s.(run := None), t);
      LeadsByStep(s, StatementVanishes, s1, t);
    } else {
      LeadsByStep(s, Recover, s.(run := None), t);
    }
    steps :| Safety.Run(s, steps) && Safety.After(s, steps) == t;
  }

  /** A statement that was on its way when its run was killed can also still land. */
  lemma KilledStatementCanLand(s: State)
    requires s.run.Some? && !s.run.value.alive && s.run.value.issued.Some? && !s.run.value.landed
    ensures Enabled(s, Lands) && Enabled(Apply(s, Lands), Recover)
  {
  }

  /** A backfill is run only while nothing is recorded under its name, and a run skips it only once its own checksum
      is recorded. */
  lemma BackfillsRunOnlyUnrecorded(s: State)
    requires s.run.Some? && s.run.value.phase.Backfilling?
    ensures Enabled(s, Issue) ==>
              var statement := NextStatement(s, s.run.value).value;
              statement.RunBackfill? && forall b <- s.backfilled :: b.name != statement.backfill.name
    ensures Enabled(s, SkipBackfill) && s.run.value.phase.j < |s.run.value.release.backfills| ==>
              s.run.value.release.backfills[s.run.value.phase.j] in s.backfilled
  {
  }

  /** A backfill under whose name another checksum is recorded stops the run: it is neither run nor skipped. */
  lemma ConflictingBackfillBlocks(s: State, other: Backfill)
    requires s.run.Some? && s.run.value.phase.Backfilling? && s.run.value.phase.j < |s.run.value.release.backfills|
    requires var b := s.run.value.release.backfills[s.run.value.phase.j];
             other in s.backfilled && other.name == b.name && other.checksum != b.checksum
    ensures !Enabled(s, Issue) && !Enabled(s, SkipBackfill)
  {
  }

  /** Convergence is verified if and only if the ledger is exactly the release's files and, under the name of each
      of its backfills, exactly its checksum is recorded. */
  lemma VerifiedExactlyWhenRecorded(s: State)
    requires RunIs(s, Verifying) && ReleaseOk(s.run.value.release) && Contiguous(s.ledger)
    ensures Enabled(s, VerifyConvergence) <==>
            && s.ledger == s.run.value.release.files
            && forall b <- s.run.value.release.backfills ::
                 (set c | c in s.backfilled && c.name == b.name :: c.checksum) == {b.checksum}
  {
    var files := s.run.value.release.files;
    PlanOfOrderedLedger(files, s.ledger);
    forall b | b in s.run.value.release.backfills
      ensures RecordedAs(s, b) <==> (set c | c in s.backfilled && c.name == b.name :: c.checksum) == {b.checksum}
    {
      ChecksumsUnder(s, b);
    }
  }

  lemma ChecksumsUnder(s: State, b: Backfill)
    ensures RecordedAs(s, b) <==> (set c | c in s.backfilled && c.name == b.name :: c.checksum) == {b.checksum}
  {
    var sums := set c | c in s.backfilled && c.name == b.name :: c.checksum;
    if sums == {b.checksum} {
      assert b.checksum in sums;
      forall c | c in s.backfilled && c.name == b.name ensures c == b {
        assert c.checksum in sums;
      }
    }
  }

  // ----- generations

  ghost predicate Fits(s: State) {
    && (forall row <- s.gate :: row.generation < 0x1_0000_0000_0000_0000)
    && (s.run.Some? && s.run.value.issued.Some? && s.run.value.issued.value.AppendGate? ==>
          s.run.value.issued.value.row.generation < 0x1_0000_0000_0000_0000)
  }

  lemma StepFits(s: State, step: Step)
    requires Fits(s) && Enabled(s, step)
    ensures Fits(Apply(s, step))
  {
  }

  /** Over every run, generations stay within 64 bits: a run that finds them exhausted appends nothing. */
  lemma {:induction false} GenerationsFit(s: State, steps: seq<Step>)
    requires Fits(s) && Safety.Run(s, steps)
    ensures Fits(Safety.After(s, steps))
    decreases |steps|
  {
    if steps != [] {
      StepFits(s, steps[0]);
      GenerationsFit(Apply(s, steps[0]), steps[1..]);
    }
  }
}
