/** Any number of PostgreSQL migration runners, each with its own release and a plan that may be
    stale, applying files under the transaction-scoped advisory lock. */
module PostgresMigrations {
  import opened Options
  import opened MigrationPlan

  /** A runner works through `pending` from `next`. */
  datatype Runner =
    | Planning(files: seq<Migration>)
    | Applying(files: seq<Migration>, next: nat)
    | Finished(files: seq<Migration>)
    | Refused

  /** `bodies` is the history of committed migration bodies. */
  datatype State = State(ledger: seq<Migration>, bodies: seq<Migration>, runners: map<nat, Runner>)

  datatype Step =
    | Join(r: nat, files: seq<Migration>)
    | MakePlan(r: nat)
    | ApplyNext(r: nat)
    | Leave(r: nat)

  predicate ReleaseOk(files: seq<Migration>) {
    Contiguous(files) && DistinctNames(files)
  }

  predicate Enabled(s: State, step: Step) {
    match step {
      case Join(r, files) => r !in s.runners && ReleaseOk(files)
      case MakePlan(r) => r in s.runners && s.runners[r].Planning?
      case ApplyNext(r) => r in s.runners && s.runners[r].Applying? && s.runners[r].next < |s.runners[r].files|
      case Leave(r) => r in s.runners
    }
  }

  // The three conditions the transaction reads again once it holds the lock.

  predicate Drifted(ledger: seq<Migration>, m: Migration) {
    exists row <- ledger :: row.version == m.version && row != m
  }

  predicate AlreadyApplied(ledger: seq<Migration>, m: Migration) {
    m in ledger
  }

  predicate OutOfOrder(ledger: seq<Migration>, m: Migration) {
    && (forall row <- ledger :: row.version != m.version)
    && (exists row <- ledger :: row.version > m.version)
  }

  predicate Refuses(ledger: seq<Migration>, m: Migration) {
    Drifted(ledger, m) || OutOfOrder(ledger, m)
  }

  function Advance(files: seq<Migration>, next: nat): Runner {
    if next >= |files| then Finished(files) else Applying(files, next)
  }

  /** One transaction: refuse, confirm, or run the body and record it. */
  function ApplyFile(s: State, r: nat, files: seq<Migration>, next: nat): State
    requires next < |files|
  {
    var m := files[next];
    if Refuses(s.ledger, m) then s.(runners := s.runners[r := Refused])
    else if AlreadyApplied(s.ledger, m) then s.(runners := s.runners[r := Advance(files, next + 1)])
    else State(s.ledger + [m], s.bodies + [m], s.runners[r := Advance(files, next + 1)])
  }

  function Apply(s: State, step: Step): State
    requires Enabled(s, step)
  {
    match step {
      case Join(r, files) => s.(runners := s.runners[r := Planning(files)])
      case MakePlan(r) =>
        var files := s.runners[r].files;
        var plan := Plan(files, s.ledger);
        s.(runners := s.runners[r := if plan.None? then Refused else Advance(files, |files| - |plan.value|)])
      case ApplyNext(r) => ApplyFile(s, r, s.runners[r].files, s.runners[r].next)
      case Leave(r) => s.(runners := s.runners - {r})
    }
  }

  /** A runner has confirmed everything before its next file. */
  ghost predicate RunnerOk(ledger: seq<Migration>, r: Runner) {
    match r {
      case Planning(files) => ReleaseOk(files)
      case Applying(files, next) =>
        ReleaseOk(files) && next < |files| && next <= |ledger| && files[..next] == ledger[..next]
      case Finished(files) => files <= ledger
      case _ => true
    }
  }

  /** The ledger is numbered 1, 2, 3, ... and is exactly the history of committed bodies. */
  ghost predicate Inv(s: State) {
    && Contiguous(s.ledger)
    && s.bodies == s.ledger
    && forall r <- s.runners :: RunnerOk(s.ledger, s.runners[r])
  }

  lemma PlanMeansPrefix(files: seq<Migration>, ledger: seq<Migration>)
    requires ReleaseOk(files) && Contiguous(ledger) && Plan(files, ledger).Some?
    ensures var next := |files| - |Plan(files, ledger).value|;
            next == |ledger| && files[..next] == ledger
  {
    PlanOfOrderedLedger(files, ledger);
  }

  /** A confirmed runner's next file is either the ledger's row of that version, refused, or the very
      next row to append. */
  lemma NextFileCases(ledger: seq<Migration>, files: seq<Migration>, next: nat)
    requires Contiguous(ledger) && RunnerOk(ledger, Applying(files, next))
    ensures next < |ledger| ==> (Drifted(ledger, files[next]) <==> ledger[next] != files[next])
    ensures next < |ledger| && !Drifted(ledger, files[next]) ==> AlreadyApplied(ledger, files[next])
    ensures next == |ledger| ==> !Refuses(ledger, files[next]) && !AlreadyApplied(ledger, files[next])
    ensures next < |ledger| ==> !OutOfOrder(ledger, files[next])
  {
    if next < |ledger| {
      assert ledger[next].version == files[next].version;
    }
  }

  lemma ApplyKeeps(s: State, r: nat, files: seq<Migration>, next: nat)
    requires Inv(s) && r in s.runners && s.runners[r] == Applying(files, next) && next < |files|
    ensures Inv(ApplyFile(s, r, files, next)) && s.ledger <= ApplyFile(s, r, files, next).ledger
  {
    assert RunnerOk(s.ledger, s.runners[r]);
    NextFileCases(s.ledger, files, next);
    var s' := ApplyFile(s, r, files, next);
    forall q | q in s'.runners ensures RunnerOk(s'.ledger, s'.runners[q]) {
      if q != r {
        assert RunnerOk(s.ledger, s.runners[q]);
        if s.runners[q].Applying? {
          assert s'.ledger[..s.runners[q].next] == s.ledger[..s.runners[q].next];
        }
      } else if s'.runners[r].Applying? {
        assert files[..next + 1] == files[..next] + [files[next]];
        assert s'.ledger[..next + 1] == s'.ledger[..next] + [s'.ledger[next]];
        assert s'.ledger[..next] == s.ledger[..next];
      } else if s'.runners[r].Finished? {
        assert files[..next + 1] == files && s'.ledger[..next + 1] == s'.ledger[..next] + [s'.ledger[next]];
        assert s'.ledger[..next] == s.ledger[..next] && files == files[..next] + [files[next]];
      }
    }
  }

  lemma StepKeeps(s: State, step: Step)
    requires Inv(s) && Enabled(s, step)
    ensures Inv(Apply(s, step)) && s.ledger <= Apply(s, step).ledger
  {
    match step {
      case MakePlan(r) =>
        assert RunnerOk(s.ledger, s.runners[r]);
        if Plan(s.runners[r].files, s.ledger).Some? { PlanMeansPrefix(s.runners[r].files, s.ledger); }
      case ApplyNext(r) => ApplyKeeps(s, r, s.runners[r].files, s.runners[r].next);
      case _ =>
    }
  }

  ghost predicate Run(s: State, steps: seq<Step>)
    decreases |steps|
  {
    steps == [] || (Enabled(s, steps[0]) && Run(Apply(s, steps[0]), steps[1..]))
  }

  ghost function After(s: State, steps: seq<Step>): State
    requires Run(s, steps)
    decreases |steps|
  {
    if steps == [] then s else After(Apply(s, steps[0]), steps[1..])
  }

  lemma {:induction false} RunKeeps(s: State, steps: seq<Step>)
    requires Inv(s) && Run(s, steps)
    ensures Inv(After(s, steps)) && s.ledger <= After(s, steps).ledger
    decreases |steps|
  {
    if steps != [] {
      StepKeeps(s, steps[0]);
      RunKeeps(Apply(s, steps[0]), steps[1..]);
    }
  }

  function Fresh(): State {
    State([], [], map[])
  }

  /** Over every run of any number of runners with any releases: the ledger is numbered without gaps,
      bodies commit once each in version order, and nothing recorded is ever removed. */
  lemma BodiesCommitOnceInOrder(before: seq<Step>, after: seq<Step>)
    requires Run(Fresh(), before) && Run(After(Fresh(), before), after)
    ensures var s, t := After(Fresh(), before), After(After(Fresh(), before), after);
            && t.bodies == t.ledger
            && (forall i :: 0 <= i < |t.bodies| ==> t.bodies[i].version == i + 1)
            && s.ledger <= t.ledger
  {
    RunKeeps(Fresh(), before);
    RunKeeps(After(Fresh(), before), after);
  }

  ghost predicate FromRelease(r: Runner, files: seq<Migration>) {
    !r.Refused? ==> r.files == files
  }

  /** When every runner works from one file sequence, the ledger is at every point an exact prefix of
      it, and no runner is ever refused. */
  lemma {:induction false} LedgerIsPrefixOfRelease(s: State, steps: seq<Step>, files: seq<Migration>)
    requires Inv(s) && Run(s, steps) && ReleaseOk(files) && s.ledger <= files
    requires forall r <- s.runners :: FromRelease(s.runners[r], files) && !s.runners[r].Refused?
    requires forall step <- steps :: step.Join? ==> step.files == files
    ensures After(s, steps).ledger <= files
    ensures forall r <- After(s, steps).runners :: !After(s, steps).runners[r].Refused?
    decreases |steps|
  {
    if steps != [] {
      var step := steps[0];
      var s' := Apply(s, step);
      StepKeeps(s, step);
      match step {
        case MakePlan(r) =>
          assert s.runners[r].files == files;
          PlanOfOrderedLedger(files, s.ledger);
        case ApplyNext(r) =>
          assert RunnerOk(s.ledger, s.runners[r]) && FromRelease(s.runners[r], files);
          NextFileCases(s.ledger, files, s.runners[r].next);
        case _ =>
      }
      LedgerIsPrefixOfRelease(s', steps[1..], files);
    }
  }

  /** In every reachable state, all files of a runner that finished are in the ledger, in their order. */
  lemma FinishedMeansApplied(steps: seq<Step>, r: nat)
    requires Run(Fresh(), steps) && r in After(Fresh(), steps).runners && After(Fresh(), steps).runners[r].Finished?
    ensures After(Fresh(), steps).runners[r].files <= After(Fresh(), steps).ledger
  {
    RunKeeps(Fresh(), steps);
    assert RunnerOk(After(Fresh(), steps).ledger, After(Fresh(), steps).runners[r]);
  }

  /** A runner is refused if and only if the ledger diverged from its own files: at the plan, when the ledger is not
      a prefix of them; at a file, when another row holds that file's place. */
  lemma RefusedExactlyWhenDiverged(s: State, r: nat)
    requires Inv(s) && r in s.runners
    ensures s.runners[r].Planning? ==>
              (Apply(s, MakePlan(r)).runners[r].Refused? <==> !(s.ledger <= s.runners[r].files))
    ensures s.runners[r].Applying? ==>
              var next, files := s.runners[r].next, s.runners[r].files;
              Apply(s, ApplyNext(r)).runners[r].Refused? <==> next < |s.ledger| && s.ledger[next] != files[next]
  {
    assert RunnerOk(s.ledger, s.runners[r]);
    if s.runners[r].Planning? {
      PlanOfOrderedLedger(s.runners[r].files, s.ledger);
    } else if s.runners[r].Applying? {
      NextFileCases(s.ledger, s.runners[r].files, s.runners[r].next);
    }
  }

  /** Whatever state the others left, a runner of the one release that keeps applying finishes, after exactly as
      many transactions as it has files left, and the whole release is then in the ledger. */
  lemma {:induction false} RunnerFinishes(s: State, r: nat, files: seq<Migration>) returns (steps: seq<Step>)
    requires Inv(s) && ReleaseOk(files) && s.ledger <= files
    requires r in s.runners && s.runners[r].Applying? && s.runners[r].files == files
    ensures Run(s, steps) && |steps| == |files| - s.runners[r].next
    ensures r in After(s, steps).runners && After(s, steps).runners[r] == Finished(files)
    ensures After(s, steps).ledger == files
    decreases |files| - s.runners[r].next
  {
    var next := s.runners[r].next;
    assert RunnerOk(s.ledger, s.runners[r]);
    NextFileCases(s.ledger, files, next);
    var s' := Apply(s, ApplyNext(r));
    StepKeeps(s, ApplyNext(r));
    assert s'.ledger <= files && |s'.ledger| > next;
    if next + 1 < |files| {
      var rest := RunnerFinishes(s', r, files);
      steps := [ApplyNext(r)] + rest;
      assert steps[1..] == rest;
    } else {
      steps := [ApplyNext(r)];
      assert steps[1..] == [] && s'.ledger == files;
    }
  }

  /** The locked re-check, on any ledger: a file is refused if and only if its version holds another row, or is
      missing while a later one is there; confirmed if and only if its very row is there and none contradicts
      it; and otherwise its body runs and its row is appended. */
  lemma RecheckDecides(s: State, r: nat, files: seq<Migration>, next: nat)
    requires next < |files|
    ensures var m, s' := files[next], ApplyFile(s, r, files, next);
            var contradicted := exists row <- s.ledger :: row.version == m.version && row != m;
            var passed := m !in s.ledger && exists row <- s.ledger :: row.version > m.version;
            && (s'.runners[r].Refused? <==> contradicted || passed)
            && (contradicted || passed || m in s.ledger ==> s'.ledger == s.ledger && s'.bodies == s.bodies)
            && (!contradicted && !passed && m !in s.ledger
                ==> s'.ledger == s.ledger + [m] && s'.bodies == s.bodies + [m])
  {
  }
}
