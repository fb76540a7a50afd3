/** Deleting one project's or one user's rows from every analytics table. The alias assertions that
    link anonymous identities to the user are deleted last, so that an interrupted deletion finds
    them again. Tables are only changed by deletions while the writer gate is closed. */
module Purge {
  import opened Options

  datatype Row = Row(project: string, user: string, anonymous: string)

  datatype Request = WholeProject(project: string) | OneUser(project: string, user: string)

  /** The target tables in deletion order; the last holds the alias assertions. */
  const TABLE_COUNT: nat := 6
  const ALIAS_TABLE: nat := 5

  type Tables = t: seq<seq<Row>> | |t| == TABLE_COUNT witness [[], [], [], [], [], []]

  /** The anonymous identities the alias assertions link to the requested user. */
  function LinkedAliases(aliasRows: seq<Row>, request: Request): set<string> {
    if request.WholeProject? then {}
    else set r | r in aliasRows && r.project == request.project && r.user == request.user
                 && r.anonymous != "" :: r.anonymous
  }

  predicate Targets(request: Request, aliases: set<string>, row: Row) {
    && row.project == request.project
    && (request.OneUser? ==> row.user == request.user || row.anonymous in aliases)
  }

  /** The rows that a deletion with this condition leaves. */
  function Keep(rows: seq<Row>, request: Request, aliases: set<string>): seq<Row> {
    if rows == [] then []
    else (if Targets(request, aliases, rows[0]) then [] else [rows[0]]) + Keep(rows[1..], request, aliases)
  }

  function Matched(rows: seq<Row>, request: Request, aliases: set<string>): nat {
    if rows == [] then 0
    else (if Targets(request, aliases, rows[0]) then 1 else 0) + Matched(rows[1..], request, aliases)
  }

  /** The rows an interrupted deletion leaves: those whose position is not marked gone. */
  function Survivors(rows: seq<Row>, gone: seq<bool>): seq<Row>
    requires |gone| == |rows|
  {
    if rows == [] then []
    else (if gone[0] then [] else [rows[0]]) + Survivors(rows[1..], gone[1..])
  }

  /** Only targeted rows are ever marked. */
  predicate MarksTargets(rows: seq<Row>, gone: seq<bool>, request: Request, aliases: set<string>) {
    |gone| == |rows| && forall i :: 0 <= i < |rows| && gone[i] ==> Targets(request, aliases, rows[i])
  }

  // ----- what a deletion must leave

  /** A row that the request does not cover, told from the tables alone: it belongs to another project; or only
      one user is deleted, the row is not that user's, and no alias assertion of that user in that project
      names the row's anonymous identity. */
  ghost predicate Spared(aliasRows: seq<Row>, request: Request, row: Row) {
    || row.project != request.project
    || (&& request.OneUser? && row.user != request.user
        && !exists a <- aliasRows ::
             a.project == request.project && a.user == request.user && a.anonymous != ""
                 && a.anonymous == row.anonymous)
  }

  /** The rows that are spared, in order. */
  ghost function Remaining(rows: seq<Row>, aliasRows: seq<Row>, request: Request): seq<Row> {
    if rows == [] then []
    else (if Spared(aliasRows, request, rows[0]) then [rows[0]] else []) + Remaining(rows[1..], aliasRows, request)
  }

  /** What every table must hold in the end, by the tables before the first attempt. */
  ghost function Goal(tables: Tables, request: Request): Tables {
    seq(TABLE_COUNT, i requires 0 <= i < TABLE_COUNT => Remaining(tables[i], tables[ALIAS_TABLE], request))
  }

  /** The deletion condition, with the aliases read from the assertions, matches exactly the rows not spared. */
  lemma TargetsExactlyUnspared(aliasRows: seq<Row>, request: Request, row: Row)
    ensures Targets(request, LinkedAliases(aliasRows, request), row) <==> !Spared(aliasRows, request, row)
  {
    if request.OneUser? && row.project == request.project {
      if row.anonymous in LinkedAliases(aliasRows, request) {
        var a :| a in aliasRows && a.project == request.project && a.user == request.user && a.anonymous != ""
                 && a.anonymous == row.anonymous;
      }
    }
  }

  lemma {:induction false} KeepIsRemaining(rows: seq<Row>, aliasRows: seq<Row>, request: Request)
    ensures Keep(rows, request, LinkedAliases(aliasRows, request)) == Remaining(rows, aliasRows, request)
  {
    if rows != [] {
      TargetsExactlyUnspared(aliasRows, request, rows[0]);
      KeepIsRemaining(rows[1..], aliasRows, request);
    }
  }

  /** Row by row: as many copies as before of a row that is spared, and none of one that is not. */
  lemma {:induction false} RemainingCounts(rows: seq<Row>, aliasRows: seq<Row>, request: Request, row: Row)
    ensures multiset(Remaining(rows, aliasRows, request))[row] ==
            if Spared(aliasRows, request, row) then multiset(rows)[row] else 0
  {
    if rows != [] {
      RemainingCounts(rows[1..], aliasRows, request, row);
      assert rows == [rows[0]] + rows[1..];
    }
  }

  // ----- a completed pass

  class Store {
    var tables: Tables

    constructor (tables: Tables)
      ensures this.tables == tables
    {
      this.tables := tables;
    }

    /** One table: count, delete only when something matches, and count again. */
    method DeleteFrom(k: nat, request: Request, aliases: set<string>) returns (matched: nat, remaining: nat)
      requires k < TABLE_COUNT
      modifies this
      ensures tables == old(tables)[k := Keep(old(tables)[k], request, aliases)]
      ensures matched == |old(tables)[k]| - |tables[k]| && remaining == 0
    {
      MatchedCounts(tables[k], request, aliases);
      matched := Matched(tables[k], request, aliases);
      if matched > 0 {
        KeepLeavesNone(tables[k], request, aliases);
        tables := tables[k := Keep(tables[k], request, aliases)];
      } else {
        KeepAllWhenNoneMatch(tables[k], request, aliases);
      }
      remaining := Matched(tables[k], request, aliases);
    }

    /** Every table in order, alias assertions last; the counts reported are those before deletion. */
    method DeleteTargetRows(request: Request) returns (matched: seq<nat>)
      modifies this
      ensures tables == Goal(old(tables), request)
      ensures |matched| == TABLE_COUNT
      ensures forall i :: 0 <= i < TABLE_COUNT ==> matched[i] == |old(tables)[i]| - |tables[i]|
    {
      var aliases := LinkedAliases(tables[ALIAS_TABLE], request);
      matched := [];
      for k := 0 to TABLE_COUNT
        invariant |matched| == k
        invariant forall i :: 0 <= i < k ==> tables[i] == Keep(old(tables)[i], request, aliases)
        invariant forall i :: k <= i < TABLE_COUNT ==> tables[i] == old(tables)[i]
        invariant forall i :: 0 <= i < k ==> matched[i] == |old(tables)[i]| - |tables[i]|
      {
        var count, remaining := DeleteFrom(k, request, aliases);
        matched := matched + [count];
      }
      GoalIsKept(old(tables), request);
    }
  }

  lemma GoalIsKept(tables: Tables, request: Request)
    ensures forall i :: 0 <= i < TABLE_COUNT ==>
              Goal(tables, request)[i] == Keep(tables[i], request, LinkedAliases(tables[ALIAS_TABLE], request))
  {
    forall i | 0 <= i < TABLE_COUNT
      ensures Goal(tables, request)[i] == Keep(tables[i], request, LinkedAliases(tables[ALIAS_TABLE], request))
    {
      KeepIsRemaining(tables[i], tables[ALIAS_TABLE], request);
    }
  }

  // ----- any number of interrupted attempts

  /** The tables, and whether the audit ledger records completion. */
  datatype State = State(tables: Tables, completed: bool)

  /** An attempt deletes the first `done` tables and part of the next one, or finishes. A part deleted here
      is all that is ever deleted by that statement; `PurgeResumption` lets the statement go on. */
  datatype Step = Interrupted(done: nat, gone: seq<bool>) | Finishes

  function Aliases(s: State, request: Request): set<string> {
    LinkedAliases(s.tables[ALIAS_TABLE], request)
  }

  predicate Enabled(s: State, request: Request, step: Step) {
    && !s.completed
    && (step.Interrupted? && step.done < TABLE_COUNT ==>
          MarksTargets(s.tables[step.done], step.gone, request, Aliases(s, request)))
  }

  function AfterTable(rows: seq<Row>, i: nat, request: Request, aliases: set<string>, step: Step): seq<Row>
    requires step.Interrupted? && i == step.done ==> |step.gone| == |rows|
  {
    if step.Finishes? || i < step.done then Keep(rows, request, aliases)
    else if i == step.done then Survivors(rows, step.gone)
    else rows
  }

  function Apply(s: State, request: Request, step: Step): State
    requires Enabled(s, request, step)
  {
    State(seq(TABLE_COUNT, i requires 0 <= i < TABLE_COUNT =>
                AfterTable(s.tables[i], i, request, Aliases(s, request), step)),
          step.Finishes?)
  }

  ghost predicate Run(s: State, request: Request, steps: seq<Step>)
    decreases |steps|
  {
    steps == [] || (Enabled(s, request, steps[0]) && Run(Apply(s, request, steps[0]), request, steps[1..]))
  }

  ghost function After(s: State, request: Request, steps: seq<Step>): State
    requires Run(s, request, steps)
    decreases |steps|
  {
    if steps == [] then s else After(Apply(s, request, steps[0]), request, steps[1..])
  }

  /** Every alias assertion the first attempt would have deleted is still reached by the aliases that
      the remaining assertions give. */
  ghost predicate StillReached(aliasRows: seq<Row>, request: Request, first: set<string>) {
    forall r <- aliasRows :: Targets(request, first, r) ==> Targets(request, LinkedAliases(aliasRows, request), r)
  }

  /** An interruption leaves no assertion of the first target out of reach. A finishing attempt is not
      constrained. */
  ghost predicate Benign(s: State, request: Request, step: Step, first: set<string>)
    requires Enabled(s, request, step)
  {
    step.Interrupted? ==> StillReached(Apply(s, request, step).tables[ALIAS_TABLE], request, first)
  }

  ghost predicate BenignRun(s: State, request: Request, steps: seq<Step>, first: set<string>)
    requires Run(s, request, steps)
    decreases |steps|
  {
    steps == [] ||
    (Benign(s, request, steps[0], first) && BenignRun(Apply(s, request, steps[0]), request, steps[1..], first))
  }

  // ----- lemmas about one table

  lemma {:induction false} KeepLeavesNone(rows: seq<Row>, request: Request, aliases: set<string>)
    ensures Matched(Keep(rows, request, aliases), request, aliases) == 0
  {
    if rows != [] {
      KeepLeavesNone(rows[1..], request, aliases);
      var rest := Keep(rows[1..], request, aliases);
      assert ([rows[0]] + rest)[1..] == rest;
      assert [] + rest == rest;
    }
  }

  lemma {:induction false} MatchedCounts(rows: seq<Row>, request: Request, aliases: set<string>)
    ensures Matched(rows, request, aliases) == |rows| - |Keep(rows, request, aliases)|
  {
    if rows != [] { MatchedCounts(rows[1..], request, aliases); }
  }

  lemma {:induction false} KeepAllWhenNoneMatch(rows: seq<Row>, request: Request, aliases: set<string>)
    requires Matched(rows, request, aliases) == 0
    ensures Keep(rows, request, aliases) == rows
  {
    if rows != [] { KeepAllWhenNoneMatch(rows[1..], request, aliases); }
  }

  lemma {:induction false} KeepMembers(rows: seq<Row>, request: Request, aliases: set<string>)
    ensures forall r :: r in Keep(rows, request, aliases) <==> r in rows && !Targets(request, aliases, r)
  {
    if rows != [] { KeepMembers(rows[1..], request, aliases); }
  }

  lemma {:induction false} SurvivorsAreRows(rows: seq<Row>, gone: seq<bool>)
    requires |gone| == |rows|
    ensures forall r <- Survivors(rows, gone) :: r in rows
  {
    if rows != [] { SurvivorsAreRows(rows[1..], gone[1..]); }
  }

  /** Finishing a deletion that was interrupted gives what the uninterrupted one gives, row for row. */
  lemma {:induction false} KeepSurvivors(rows: seq<Row>, gone: seq<bool>, request: Request, aliases: set<string>)
    requires MarksTargets(rows, gone, request, aliases)
    ensures Keep(Survivors(rows, gone), request, aliases) == Keep(rows, request, aliases)
  {
    if rows != [] {
      KeepSurvivors(rows[1..], gone[1..], request, aliases);
      var rest := Survivors(rows[1..], gone[1..]);
      assert ([rows[0]] + rest)[1..] == rest;
      assert [] + rest == rest;
    }
  }

  /** Deleting with fewer aliases after deleting with more changes nothing. */
  lemma {:induction false} KeepAbsorbs(rows: seq<Row>, request: Request, more: set<string>, fewer: set<string>)
    requires fewer <= more
    ensures Keep(Keep(rows, request, more), request, fewer) == Keep(rows, request, more)
    ensures Keep(Keep(rows, request, fewer), request, more) == Keep(rows, request, more)
  {
    if rows != [] {
      KeepAbsorbs(rows[1..], request, more, fewer);
      var m, f := Keep(rows[1..], request, more), Keep(rows[1..], request, fewer);
      assert ([rows[0]] + m)[1..] == m && ([rows[0]] + f)[1..] == f;
      assert [] + m == m && [] + f == f;
    }
  }

  lemma {:induction false} KeepAgrees(rows: seq<Row>, request: Request, a: set<string>, b: set<string>)
    requires forall r <- rows :: Targets(request, a, r) <==> Targets(request, b, r)
    ensures Keep(rows, request, a) == Keep(rows, request, b)
  {
    if rows != [] { KeepAgrees(rows[1..], request, a, b); }
  }

  // ----- runs

  /** What every attempt keeps: deleting with the first attempt's aliases would give the goal; and once
      assertions are missing, the tables before the alias table are already final. */
  ghost predicate Aims(s: State, request: Request, first: set<string>, goal: Tables) {
    && Aliases(s, request) <= first
    && (forall i :: 0 <= i < TABLE_COUNT ==> Keep(s.tables[i], request, first) == goal[i])
    && (forall i :: 0 <= i < ALIAS_TABLE ==> Aliases(s, request) == first || s.tables[i] == goal[i])
  }

  ghost predicate Progress(s: State, request: Request, first: set<string>, goal: Tables) {
    && Aims(s, request, first, goal)
    && (s.completed || StillReached(s.tables[ALIAS_TABLE], request, first))
    && (s.completed ==> s.tables == goal)
  }

  lemma AliasesShrink(rows: seq<Row>, fewer: seq<Row>, request: Request)
    requires forall r <- fewer :: r in rows
    ensures LinkedAliases(fewer, request) <= LinkedAliases(rows, request)
  {
  }

  /** One table of one attempt: it keeps aiming at the goal, and is final if it was deleted. */
  lemma TableAdvances(rows: seq<Row>, i: nat, request: Request, aliases: set<string>, first: set<string>, step: Step)
    requires aliases <= first
    requires step.Interrupted? && i == step.done ==> MarksTargets(rows, step.gone, request, aliases)
    ensures Keep(AfterTable(rows, i, request, aliases, step), request, first) == Keep(rows, request, first)
    ensures forall r <- AfterTable(rows, i, request, aliases, step) :: r in rows
  {
    KeepAbsorbs(rows, request, first, aliases);
    KeepMembers(rows, request, aliases);
    if step.Interrupted? && i == step.done {
      assert MarksTargets(rows, step.gone, request, first);
      KeepSurvivors(rows, step.gone, request, first);
      SurvivorsAreRows(rows, step.gone);
    }
  }

  /** A table before the alias table that an attempt deleted is final. */
  lemma DeletedIsFinal(rows: seq<Row>, request: Request, aliases: set<string>, first: set<string>, goal: seq<Row>)
    requires aliases <= first && Keep(rows, request, first) == goal
    requires aliases == first || rows == goal
    ensures Keep(rows, request, aliases) == goal
  {
    if rows == goal { KeepAbsorbs(rows, request, first, aliases); }
  }

  lemma StepAims(s: State, request: Request, step: Step, first: set<string>, goal: Tables)
    requires Aims(s, request, first, goal) && Enabled(s, request, step)
    ensures Aims(Apply(s, request, step), request, first, goal)
  {
    var s', aliases := Apply(s, request, step), Aliases(s, request);
    forall i | 0 <= i < TABLE_COUNT
      ensures Keep(s'.tables[i], request, first) == goal[i]
    {
      TableAdvances(s.tables[i], i, request, aliases, first, step);
    }
    TableAdvances(s.tables[ALIAS_TABLE], ALIAS_TABLE, request, aliases, first, step);
    AliasesShrink(s.tables[ALIAS_TABLE], s'.tables[ALIAS_TABLE], request);
    forall i | 0 <= i < ALIAS_TABLE
      ensures Aliases(s', request) == first || s'.tables[i] == goal[i]
    {
      FirstFiveAdvance(s, request, step, first, goal, i);
    }
  }

  lemma StepProgress(s: State, request: Request, step: Step, first: set<string>, goal: Tables)
    requires Progress(s, request, first, goal) && Enabled(s, request, step)
    requires Benign(s, request, step, first)
    ensures Progress(Apply(s, request, step), request, first, goal)
  {
    var s', aliases := Apply(s, request, step), Aliases(s, request);
    StepAims(s, request, step, first, goal);
    if step.Finishes? {
      forall i | 0 <= i < TABLE_COUNT ensures s'.tables[i] == goal[i] {
        if i < ALIAS_TABLE {
          DeletedIsFinal(s.tables[i], request, aliases, first, goal[i]);
        } else {
          KeepAgrees(s.tables[ALIAS_TABLE], request, aliases, first);
        }
      }
    }
  }

  lemma FirstFiveAdvance(s: State, request: Request, step: Step, first: set<string>, goal: Tables, i: nat)
    requires Aims(s, request, first, goal) && Enabled(s, request, step) && i < ALIAS_TABLE
    ensures Aliases(Apply(s, request, step), request) == first || Apply(s, request, step).tables[i] == goal[i]
  {
    var s', aliases := Apply(s, request, step), Aliases(s, request);
    if step.Finishes? || step.done >= ALIAS_TABLE {
      DeletedIsFinal(s.tables[i], request, aliases, first, goal[i]);
    } else {
      assert s'.tables[ALIAS_TABLE] == s.tables[ALIAS_TABLE];
      if aliases != first { FinalStaysFinal(s.tables[i], i, request, aliases, first, step); }
    }
  }

  /** A final table is not changed by a later attempt. */
  lemma FinalStaysFinal(rows: seq<Row>, i: nat, request: Request, aliases: set<string>, first: set<string>, step: Step)
    requires aliases <= first && Keep(rows, request, first) == rows
    requires step.Interrupted? && i == step.done ==> MarksTargets(rows, step.gone, request, aliases)
    ensures AfterTable(rows, i, request, aliases, step) == rows
  {
    KeepAbsorbs(rows, request, first, aliases);
    if step.Interrupted? && i == step.done {
      KeepMembers(rows, request, first);
      forall k | 0 <= k < |rows| ensures !step.gone[k] {
        assert rows[k] in Keep(rows, request, first);
      }
      NothingMarked(rows, step.gone);
    }
  }

  lemma {:induction false} NothingMarked(rows: seq<Row>, gone: seq<bool>)
    requires |gone| == |rows| && forall i :: 0 <= i < |gone| ==> !gone[i]
    ensures Survivors(rows, gone) == rows
  {
    if rows != [] { NothingMarked(rows[1..], gone[1..]); }
  }

  lemma {:induction false} RunProgress(s: State, request: Request, steps: seq<Step>, first: set<string>, goal: Tables)
    requires Progress(s, request, first, goal) && Run(s, request, steps) && BenignRun(s, request, steps, first)
    ensures Progress(After(s, request, steps), request, first, goal)
    decreases |steps|
  {
    if steps != [] {
      StepProgress(s, request, steps[0], first, goal);
      RunProgress(Apply(s, request, steps[0]), request, steps[1..], first, goal);
    }
  }

  lemma BenignRunsReachGoal(start: Tables, request: Request, steps: seq<Step>)
    requires Run(State(start, false), request, steps)
    requires BenignRun(State(start, false), request, steps, LinkedAliases(start[ALIAS_TABLE], request))
    requires After(State(start, false), request, steps).completed
    ensures After(State(start, false), request, steps).tables == Goal(start, request)
  {
    var first := LinkedAliases(start[ALIAS_TABLE], request);
    GoalIsKept(start, request);
    RunProgress(State(start, false), request, steps, first, Goal(start, request));
  }

  // ----- crashes between tables

  /** The attempt stops between two tables, inside a table before the alias table, or at the alias table
      with none or all of its targets deleted. */
  ghost predicate Atomic(s: State, request: Request, step: Step) {
    step.Interrupted? && step.done == ALIAS_TABLE ==>
      && |step.gone| == |s.tables[ALIAS_TABLE]|
      && (|| (forall i :: 0 <= i < |step.gone| ==> !step.gone[i])
          || (forall i :: 0 <= i < |step.gone| ==>
                step.gone[i] == Targets(request, Aliases(s, request), s.tables[ALIAS_TABLE][i])))
  }

  ghost predicate AtomicRun(s: State, request: Request, steps: seq<Step>)
    requires Run(s, request, steps)
    decreases |steps|
  {
    steps == [] || (Atomic(s, request, steps[0]) && AtomicRun(Apply(s, request, steps[0]), request, steps[1..]))
  }

  lemma AtomicIsBenign(s: State, request: Request, step: Step, first: set<string>)
    requires Enabled(s, request, step) && Atomic(s, request, step)
        && StillReached(s.tables[ALIAS_TABLE], request, first)
    ensures StillReached(Apply(s, request, step).tables[ALIAS_TABLE], request, first)
  {
    var rows, aliases := s.tables[ALIAS_TABLE], Aliases(s, request);
    KeepMembers(rows, request, aliases);
    if step.Interrupted? && step.done == ALIAS_TABLE {
      if forall i :: 0 <= i < |step.gone| ==> !step.gone[i] {
        NothingMarked(rows, step.gone);
      } else {
        AllMarked(rows, step.gone, request, aliases);
      }
    }
  }

  lemma {:induction false} AllMarked(rows: seq<Row>, gone: seq<bool>, request: Request, aliases: set<string>)
    requires |gone| == |rows|
    requires forall i :: 0 <= i < |rows| ==> gone[i] == Targets(request, aliases, rows[i])
    ensures Survivors(rows, gone) == Keep(rows, request, aliases)
  {
    if rows != [] { AllMarked(rows[1..], gone[1..], request, aliases); }
  }

  lemma {:induction false} AtomicRunIsBenign(s: State, request: Request, steps: seq<Step>, first: set<string>)
    requires Run(s, request, steps) && AtomicRun(s, request, steps)
        && StillReached(s.tables[ALIAS_TABLE], request, first)
    ensures BenignRun(s, request, steps, first)
    decreases |steps|
  {
    if steps != [] {
      AtomicIsBenign(s, request, steps[0], first);
      AtomicRunIsBenign(Apply(s, request, steps[0]), request, steps[1..], first);
    }
  }

  /** Crash-safe purge. Over every run whose attempts were cut off between tables, inside the tables before
      the alias table, or at the alias table with none or all of its targets deleted: once completion is
      recorded, every table holds exactly the rows that match neither the user nor any alias linked at the
      first attempt, in their old order. */
  lemma AtomicRunsReachGoal(start: Tables, request: Request, steps: seq<Step>)
    requires Run(State(start, false), request, steps) && AtomicRun(State(start, false), request, steps)
    requires After(State(start, false), request, steps).completed
    ensures After(State(start, false), request, steps).tables == Goal(start, request)
  {
    AtomicRunIsBenign(State(start, false), request, steps, LinkedAliases(start[ALIAS_TABLE], request));
    BenignRunsReachGoal(start, request, steps);
  }

  // ----- crashes anywhere

  /** An alias row of the first target that the remaining assertions no longer reach. */
  ghost predicate Stranded(s: State, request: Request, first: set<string>, r: Row) {
    r in s.tables[ALIAS_TABLE] && Targets(request, first, r) && !Targets(request, Aliases(s, request), r)
  }

  lemma {:induction false} UnmarkedSurvives(rows: seq<Row>, gone: seq<bool>, k: nat)
    requires |gone| == |rows| && k < |rows| && !gone[k]
    ensures rows[k] in Survivors(rows, gone)
  {
    if k > 0 { UnmarkedSurvives(rows[1..], gone[1..], k - 1); }
  }

  lemma StrandedStays(s: State, request: Request, step: Step, first: set<string>, r: Row)
    requires Stranded(s, request, first, r) && Enabled(s, request, step)
    ensures Stranded(Apply(s, request, step), request, first, r)
  {
    var rows, s' := s.tables[ALIAS_TABLE], Apply(s, request, step);
    TableAdvances(rows, ALIAS_TABLE, request, Aliases(s, request), Aliases(s, request), step);
    AliasesShrink(rows, s'.tables[ALIAS_TABLE], request);
    KeepMembers(rows, request, Aliases(s, request));
    if step.Interrupted? && step.done == ALIAS_TABLE {
      var k :| 0 <= k < |rows| && rows[k] == r;
      UnmarkedSurvives(rows, step.gone, k);
    }
  }

  lemma {:induction false} StrandedForever(s: State, request: Request, steps: seq<Step>, first: set<string>, r: Row)
    requires Stranded(s, request, first, r) && Run(s, request, steps)
    ensures Stranded(After(s, request, steps), request, first, r)
    decreases |steps|
  {
    if steps != [] {
      StrandedStays(s, request, steps[0], first, r);
      StrandedForever(Apply(s, request, steps[0]), request, steps[1..], first, r);
    }
  }

  lemma {:induction false} SomethingStranded(s: State, request: Request, steps: seq<Step>, first: set<string>)
      returns (r: Row)
    requires Run(s, request, steps) && !BenignRun(s, request, steps, first)
    ensures Stranded(After(s, request, steps), request, first, r)
    decreases |steps|
  {
    var next := Apply(s, request, steps[0]);
    if Benign(s, request, steps[0], first) {
      r := SomethingStranded(next, request, steps[1..], first);
    } else {
      r :| r in next.tables[ALIAS_TABLE] && Targets(request, first, r) && !Targets(request, Aliases(next, request), r);
      StrandedForever(next, request, steps[1..], first, r);
    }
  }

  /** For one run: it ends at the goal if and only if none of its interruptions left an alias assertion of
      the first target out of reach of the assertions remaining. */
  lemma ReachesGoalExactlyWhenBenign(start: Tables, request: Request, steps: seq<Step>)
    requires Run(State(start, false), request, steps) && After(State(start, false), request, steps).completed
    ensures After(State(start, false), request, steps).tables == Goal(start, request) <==>
            BenignRun(State(start, false), request, steps, LinkedAliases(start[ALIAS_TABLE], request))
  {
    var s, first := State(start, false), LinkedAliases(start[ALIAS_TABLE], request);
    if BenignRun(s, request, steps, first) {
      BenignRunsReachGoal(start, request, steps);
    } else {
      var r := SomethingStranded(s, request, steps, first);
      KeepMembers(start[ALIAS_TABLE], request, first);
      GoalIsKept(start, request);
      assert r !in Goal(start, request)[ALIAS_TABLE];
    }
  }

  /** No other user of the project asserted an anonymous identity of the requested user. */
  ghost predicate OwnAssertionsOnly(aliasRows: seq<Row>, request: Request) {
    request.OneUser? ==>
      forall a <- aliasRows, b <- aliasRows ::
        (a.project == request.project && b.project == request.project && a.user == request.user
         && a.anonymous != "" && b.anonymous == a.anonymous) ==> b.user == request.user
  }

  lemma OwnAssertionsAreTargets(aliasRows: seq<Row>, request: Request)
    ensures OwnAssertionsOnly(aliasRows, request) <==>
            (request.OneUser? ==>
               forall r <- aliasRows :: Targets(request, LinkedAliases(aliasRows, request), r)
                   ==> r.user == request.user)
  {
    if request.OneUser? {
      var aliases := LinkedAliases(aliasRows, request);
      if OwnAssertionsOnly(aliasRows, request) {
        forall r | r in aliasRows && Targets(request, aliases, r) ensures r.user == request.user {
          if r.anonymous in aliases {
            var a :| a in aliasRows && a.project == request.project && a.user == request.user && a.anonymous != ""
                     && a.anonymous == r.anonymous;
          }
        }
      }
    }
  }

  ghost predicate EveryRunReachesGoal(start: Tables, request: Request) {
    forall steps :: Run(State(start, false), request, steps) && After(State(start, false), request, steps).completed ==>
      After(State(start, false), request, steps).tables == Goal(start, request)
  }

  /** Whatever the crashes, the purge ends at its goal if and only if, before it starts, every targeted
      assertion of the alias table belongs to the requested user, or the whole project is deleted. */
  lemma ConvergesExactlyWhenOwnAssertionsOnly(start: Tables, request: Request)
    ensures EveryRunReachesGoal(start, request) <==> OwnAssertionsOnly(start[ALIAS_TABLE], request)
  {
    var s, rows := State(start, false), start[ALIAS_TABLE];
    OwnAssertionsAreTargets(rows, request);
    if OwnAssertionsOnly(rows, request) {
      forall steps | Run(s, request, steps) && After(s, request, steps).completed
        ensures After(s, request, steps).tables == Goal(start, request)
      {
        OwnAssertionsStayReached(s, request, steps, LinkedAliases(rows, request));
        BenignRunsReachGoal(start, request, steps);
      }
    } else {
      SharedAliasStrands(start, request);
    }
  }

  ghost predicate TargetsOwned(aliasRows: seq<Row>, request: Request, first: set<string>) {
    forall r <- aliasRows :: Targets(request, first, r) ==> request.WholeProject? || r.user == request.user
  }

  lemma {:induction false} OwnAssertionsStayReached(s: State, request: Request, steps: seq<Step>, first: set<string>)
    requires Run(s, request, steps) && TargetsOwned(s.tables[ALIAS_TABLE], request, first)
    ensures BenignRun(s, request, steps, first)
    decreases |steps|
  {
    if steps != [] {
      var s' := Apply(s, request, steps[0]);
      TableAdvances(s.tables[ALIAS_TABLE], ALIAS_TABLE, request, Aliases(s, request), Aliases(s, request), steps[0]);
      assert TargetsOwned(s'.tables[ALIAS_TABLE], request, first);
      OwnAssertionsStayReached(s', request, steps[1..], first);
    }
  }

  /** The interruption that deletes the requested user's own assertions and nothing else. */
  function OwnMarks(rows: seq<Row>, request: Request): seq<bool>
    requires request.OneUser?
  {
    seq(|rows|, i requires 0 <= i < |rows| => rows[i].project == request.project && rows[i].user == request.user)
  }

  lemma {:induction false} OwnMarksLeaveNone(rows: seq<Row>, request: Request)
    requires request.OneUser?
    ensures forall r <- Survivors(rows, OwnMarks(rows, request)) ::
              !(r.project == request.project && r.user == request.user)
  {
    if rows != [] {
      assert OwnMarks(rows, request)[1..] == OwnMarks(rows[1..], request);
      OwnMarksLeaveNone(rows[1..], request);
    }
  }

  lemma SharedAliasStrands(start: Tables, request: Request)
    requires !OwnAssertionsOnly(start[ALIAS_TABLE], request)
    ensures !EveryRunReachesGoal(start, request)
  {
    var s, rows, first := State(start, false), start[ALIAS_TABLE], LinkedAliases(start[ALIAS_TABLE], request);
    OwnAssertionsAreTargets(rows, request);
    var k :| 0 <= k < |rows| && Targets(request, first, rows[k]) && rows[k].user != request.user;
    var step := Interrupted(ALIAS_TABLE, OwnMarks(rows, request));
    assert Enabled(s, request, step);
    var next := Apply(s, request, step);
    OwnMarksLeaveNone(rows, request);
    UnmarkedSurvives(rows, step.gone, k);
    assert next.tables[ALIAS_TABLE] == Survivors(rows, step.gone);
    assert Aliases(next, request) == {};
    assert Stranded(next, request, first, rows[k]);
    StrandedForever(next, request, [Finishes], first, rows[k]);
    TwoSteps(s, request, step);
    KeepMembers(rows, request, first);
    GoalIsKept(start, request);
    assert rows[k] !in Goal(start, request)[ALIAS_TABLE];
  }

  lemma TwoSteps(s: State, request: Request, step: Step)
    requires Enabled(s, request, step) && step.Interrupted?
    ensures Run(s, request, [step, Finishes])
    ensures Run(Apply(s, request, step), request, [Finishes])
    ensures After(s, request, [step, Finishes]) == After(Apply(s, request, step), request, [Finishes])
    ensures After(s, request, [step, Finishes]).completed
  {
    var next := Apply(s, request, step);
    assert [step, Finishes][1..] == [Finishes] && [Finishes][1..] == [];
    assert Enabled(next, request, Finishes);
    assert Run(Apply(next, request, Finishes), request, []);
  }

  /** A run that ends away from the goal: two users asserted the same anonymous identity, the deletion of
      the alias table stopped after the requested user's assertion, and the retry completed. */
  lemma PartialAliasDeletionCanLeaveARow()
    ensures var start: Tables := [[], [], [], [], [], [Row("p", "u", "a"), Row("p", "v", "a")]];
            var request, steps := OneUser("p", "u"), [Interrupted(ALIAS_TABLE, [true, false]), Finishes];
            var s := State(start, false);
            && Run(s, request, steps) && After(s, request, steps).completed
            && After(s, request, steps).tables != Goal(start, request)
  {
    var rows := [Row("p", "u", "a"), Row("p", "v", "a")];
    var start: Tables := [[], [], [], [], [], rows];
    var s, request, step := State(start, false), OneUser("p", "u"), Interrupted(ALIAS_TABLE, [true, false]);
    var first, next := LinkedAliases(rows, request), Apply(s, request, step);
    assert rows[0] in rows && "a" in first;
    UnmarkedSurvives(rows, [true, false], 1);
    assert [true, false][1..] == [false] && rows[1..] == [rows[1]];
    assert next.tables[ALIAS_TABLE] == Survivors(rows, [true, false]) == [rows[1]];
    assert Stranded(next, request, first, rows[1]);
    TwoSteps(s, request, step);
    StrandedForever(next, request, [Finishes], first, rows[1]);
    KeepMembers(rows, request, first);
    GoalIsKept(start, request);
    assert rows[1] !in Goal(start, request)[ALIAS_TABLE];
  }
}
