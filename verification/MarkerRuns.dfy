/** Runs over one boundary row with any number of publishers, each working from a snapshot that
    may be stale and receiving arbitrary Redis replies. */
module MarkerRuns {
  import opened Options
  import opened Markers

  /** `recorded` counts the failures that reached the row. */
  datatype System = System(row: Row, publishers: map<nat, Phase>, recorded: nat)

  datatype Step =
    | Fetch(p: nat)
    | Script(p: nat, reply: Reply)
    | Commit(p: nat, outcome: Outcome)
    | Record(p: nat, collision: bool, outcome: Outcome)
    | Crash(p: nat)

  predicate Enabled(s: System, step: Step) {
    match step {
      case Fetch(p) => s.row.state.Pending? && s.row.markerId.None? && s.row.attempts < MAX_PUBLISH_ATTEMPTS
      case Script(p, _) => p in s.publishers && s.publishers[p].Fetched?
      case Commit(p, _) => p in s.publishers && s.publishers[p].Replied?
      case Record(p, _, _) => p in s.publishers && s.publishers[p].Failed?
      case Crash(p) => true
    }
  }

  function Apply(s: System, step: Step): System
    requires Enabled(s, step)
  {
    match step {
      case Fetch(p) =>
        s.(publishers := s.publishers[p := Fetched(Snapshot(s.row.attempts, s.row.observed))])
      case Script(p, reply) =>
        s.(publishers := s.publishers[p := AfterReply(s.publishers[p].snap, reply)])
      case Commit(p, outcome) =>
        var ph := s.publishers[p];
        var next := AfterCommit(s.row, ph.snap, ph.id, outcome);
        s.(row := CommitRow(s.row, ph.snap, ph.id, outcome),
        publishers := if next.Some? then s.publishers[p := next.value] else s.publishers - {p})
      case Record(p, collision, outcome) =>
        var ph := s.publishers[p];
        var row := RecordRow(s.row, ph.snap, ph.failure, collision, outcome);
        System(row, s.publishers - {p}, s.recorded + (if row == s.row then 0 else 1))
      case Crash(p) => s.(publishers := s.publishers - {p})
    }
  }

  ghost predicate Inv(s: System) {
    && RowOk(s.row)
    && s.row.attempts == s.recorded
    && forall p <- s.publishers :: PhaseOk(s.row, s.publishers[p])
  }

  lemma StepKeeps(s: System, step: Step)
    requires Inv(s) && Enabled(s, step)
    ensures Inv(Apply(s, step)) && Evolves(s.row, Apply(s, step).row)
  {
    var s' := Apply(s, step);
    match step {
      case Commit(p, outcome) =>
        var ph := s.publishers[p];
        CommitKeeps(s.row, ph.snap, ph.id, outcome);
        forall q | q in s.publishers ensures PhaseOk(s'.row, s.publishers[q]) {
          PhaseSurvives(s.row, s'.row, s.publishers[q]);
        }
      case Record(p, collision, outcome) =>
        var ph := s.publishers[p];
        RecordKeeps(s.row, ph.snap, ph.failure, collision, outcome);
        forall q | q in s.publishers ensures PhaseOk(s'.row, s.publishers[q]) {
          PhaseSurvives(s.row, s'.row, s.publishers[q]);
        }
      case _ =>
    }
  }

  // ----- whole runs

  ghost predicate Run(s: System, steps: seq<Step>)
    decreases |steps|
  {
    steps == [] || (Enabled(s, steps[0]) && Run(Apply(s, steps[0]), steps[1..]))
  }

  ghost function After(s: System, steps: seq<Step>): System
    requires Run(s, steps)
    decreases |steps|
  {
    if steps == [] then s else After(Apply(s, steps[0]), steps[1..])
  }

  /** Over every run from a consistent row: published and quarantined are absorbing, the observed
      identity is write-once, attempts count the recorded failures and never exceed five, and a
      published row carries its observed identity. */
  lemma {:induction false} RunIsMonotone(s: System, steps: seq<Step>)
    requires Inv(s) && Run(s, steps)
    ensures var t := After(s, steps);
            && Inv(t)
            && Evolves(s.row, t.row)
            && t.row.attempts == t.recorded <= MAX_PUBLISH_ATTEMPTS
            && (t.row.state.Published? ==> t.row.markerId.Some? && t.row.markerId == t.row.observed)
    decreases |steps|
  {
    if steps != [] {
      StepKeeps(s, steps[0]);
      RunIsMonotone(Apply(s, steps[0]), steps[1..]);
    }
  }

  /** A publish that committed but lost its reply stays published with its own identifier, whatever
      its publisher or any other records afterwards; it is never quarantined. */
  lemma LostReplyNeverQuarantines(s: System, p: nat, rest: seq<Step>)
    requires Inv(s) && Enabled(s, Commit(p, CommittedReplyLost))
    requires s.row.state.Pending? && s.row.attempts == s.publishers[p].snap.attempts
    requires Run(Apply(s, Commit(p, CommittedReplyLost)), rest)
    ensures PublishedAs(After(Apply(s, Commit(p, CommittedReplyLost)), rest).row, s.publishers[p].id)
    ensures Apply(s, Commit(p, CommittedReplyLost)).publishers[p].Failed?
  {
    StepKeeps(s, Commit(p, CommittedReplyLost));
    RunIsMonotone(Apply(s, Commit(p, CommittedReplyLost)), rest);
  }

  /** Five recorded failures always end in quarantine: no sixth attempt is ever fetched. */
  lemma FifthFailureQuarantines(s: System, steps: seq<Step>)
    requires Inv(s) && Run(s, steps)
    ensures After(s, steps).recorded == MAX_PUBLISH_ATTEMPTS ==>
              After(s, steps).row.state.Quarantined?
              && forall p :: !Enabled(After(s, steps), Fetch(p))
  {
    RunIsMonotone(s, steps);
  }
}
