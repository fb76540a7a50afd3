/** Deletions that outlive their client. A submitted deletion may go on in the server after the attempt that
    sent it was killed, with the aliases that attempt had read, while later attempts already run. */
module PurgeResumption {
  import opened Purge

  /** A deletion left running: its table, and the aliases of its condition. */
  datatype Left = Left(table: nat, aliases: set<string>)

  datatype Server = Server(purge: State, running: set<Left>)

  datatype Event =
    | Attempt(step: Step)
    | GoesOn(left: Left, gone: seq<bool>)
    | Ends(left: Left)

  ghost predicate Possible(v: Server, request: Request, event: Event) {
    match event
    case Attempt(step) => Enabled(v.purge, request, step)
    case GoesOn(left, gone) =>
      && left in v.running && left.table < TABLE_COUNT
      && MarksTargets(v.purge.tables[left.table], gone, request, left.aliases)
    case Ends(left) => left in v.running && left.table < TABLE_COUNT
  }

  function WithTable(s: State, table: nat, rows: seq<Row>): State
    requires table < TABLE_COUNT
  {
    s.(tables := s.tables[table := rows])
  }

  /** An attempt cut off inside a table leaves its deletion of that table running. */
  function Next(v: Server, request: Request, event: Event): Server
    requires Possible(v, request, event)
  {
    match event
    case Attempt(step) =>
      Server(Apply(v.purge, request, step),
             if step.Interrupted? && step.done < TABLE_COUNT
             then v.running + {Left(step.done, Aliases(v.purge, request))} else v.running)
    case GoesOn(left, gone) =>
      v.(purge := WithTable(v.purge, left.table, Survivors(v.purge.tables[left.table], gone)))
    case Ends(left) =>
      Server(WithTable(v.purge, left.table, Keep(v.purge.tables[left.table], request, left.aliases)),
             v.running - {left})
  }

  ghost predicate History(v: Server, request: Request, events: seq<Event>)
    decreases |events|
  {
    events == [] || (Possible(v, request, events[0]) && History(Next(v, request, events[0]), request, events[1..]))
  }

  ghost function Finally(v: Server, request: Request, events: seq<Event>): Server
    requires History(v, request, events)
    decreases |events|
  {
    if events == [] then v else Finally(Next(v, request, events[0]), request, events[1..])
  }

  // ----- what every event keeps

  /** Every assertion of the first target is reached by the remaining assertions or by a running deletion of
      the alias table. */
  ghost predicate Covered(v: Server, request: Request, first: set<string>) {
    forall r <- v.purge.tables[ALIAS_TABLE] :: Targets(request, first, r) ==>
      || Targets(request, Aliases(v.purge, request), r)
      || exists left <- v.running :: left.table == ALIAS_TABLE && Targets(request, left.aliases, r)
  }

  ghost predicate FirstFinal(s: State, goal: Tables) {
    forall i :: 0 <= i < ALIAS_TABLE ==> s.tables[i] == goal[i]
  }

  /** Running deletions know at least the aliases that are left, and no more than the first attempt's; one
      of the alias table was started when the tables before it were final. */
  ghost predicate RunningOk(v: Server, request: Request, first: set<string>, goal: Tables) {
    forall left <- v.running ::
      && left.table < TABLE_COUNT && Aliases(v.purge, request) <= left.aliases <= first
      && (left.table == ALIAS_TABLE ==> FirstFinal(v.purge, goal))
  }

  /** Once completion is recorded, the tables before the alias table are final, and what is left in the
      alias table is not reached by its own assertions. */
  ghost predicate Recorded(v: Server, request: Request, goal: Tables) {
    v.purge.completed ==>
      && FirstFinal(v.purge, goal)
      && (forall r <- v.purge.tables[ALIAS_TABLE] :: !Targets(request, Aliases(v.purge, request), r))
  }

  ghost predicate Kept(v: Server, request: Request, first: set<string>, goal: Tables) {
    Aims(v.purge, request, first, goal) && Covered(v, request, first) && RunningOk(v, request, first, goal)
    && Recorded(v, request, goal)
  }

  lemma AttemptCovers(v: Server, request: Request, step: Step, first: set<string>)
    requires Covered(v, request, first) && Enabled(v.purge, request, step)
    ensures Covered(Next(v, request, Attempt(step)), request, first)
  {
    var rows, aliases := v.purge.tables[ALIAS_TABLE], Aliases(v.purge, request);
    var v' := Next(v, request, Attempt(step));
    TableAdvances(rows, ALIAS_TABLE, request, aliases, aliases, step);
    KeepMembers(rows, request, aliases);
    forall r | r in v'.purge.tables[ALIAS_TABLE] && Targets(request, first, r)
      ensures || Targets(request, Aliases(v'.purge, request), r)
              || exists left <- v'.running :: left.table == ALIAS_TABLE && Targets(request, left.aliases, r)
    {
      if Targets(request, aliases, r) {
        if step.Interrupted? && step.done == ALIAS_TABLE {
          assert Left(ALIAS_TABLE, aliases) in v'.running;
        }
      } else {
        var left :| left in v.running && left.table == ALIAS_TABLE && Targets(request, left.aliases, r);
        assert left in v'.running;
      }
    }
  }

  /** Tables that are final stay so, and those an attempt got past become so. */
  lemma AttemptFinal(s: State, request: Request, step: Step, first: set<string>, goal: Tables)
    requires Aims(s, request, first, goal) && Enabled(s, request, step)
    requires FirstFinal(s, goal) || step.Finishes? || step.done >= ALIAS_TABLE
    ensures FirstFinal(Apply(s, request, step), goal)
  {
    var s', aliases := Apply(s, request, step), Aliases(s, request);
    forall i | 0 <= i < ALIAS_TABLE ensures s'.tables[i] == goal[i] {
      if step.Finishes? || step.done >= ALIAS_TABLE {
        DeletedIsFinal(s.tables[i], request, aliases, first, goal[i]);
      } else {
        FinalStaysFinal(s.tables[i], i, request, aliases, first, step);
      }
    }
  }

  lemma AttemptRunning(v: Server, request: Request, step: Step, first: set<string>, goal: Tables)
    requires Aims(v.purge, request, first, goal) && RunningOk(v, request, first, goal)
        && Enabled(v.purge, request, step)
    ensures RunningOk(Next(v, request, Attempt(step)), request, first, goal)
  {
    var rows, aliases := v.purge.tables[ALIAS_TABLE], Aliases(v.purge, request);
    var v' := Next(v, request, Attempt(step));
    TableAdvances(rows, ALIAS_TABLE, request, aliases, aliases, step);
    AliasesShrink(rows, v'.purge.tables[ALIAS_TABLE], request);
    if FirstFinal(v.purge, goal) || step.Finishes? || step.done >= ALIAS_TABLE {
      AttemptFinal(v.purge, request, step, first, goal);
    }
  }

  lemma AttemptKeeps(v: Server, request: Request, step: Step, first: set<string>, goal: Tables)
    requires Kept(v, request, first, goal) && Enabled(v.purge, request, step)
    ensures Kept(Next(v, request, Attempt(step)), request, first, goal)
  {
    StepAims(v.purge, request, step, first, goal);
    AttemptCovers(v, request, step, first);
    AttemptRunning(v, request, step, first, goal);
    if step.Finishes? {
      var rows, aliases := v.purge.tables[ALIAS_TABLE], Aliases(v.purge, request);
      AttemptFinal(v.purge, request, step, first, goal);
      KeepMembers(rows, request, aliases);
      AliasesShrink(rows, Keep(rows, request, aliases), request);
    }
  }

  /** What a running deletion may leave of its table: rows of it, the goal still in reach, and all of it
      when it was final. */
  ghost predicate Shrinks(rows: seq<Row>, rows': seq<Row>, request: Request, first: set<string>) {
    && (forall r <- rows' :: r in rows)
    && Keep(rows', request, first) == Keep(rows, request, first)
    && (Keep(rows, request, first) == rows ==> rows' == rows)
  }

  lemma PartShrinks(rows: seq<Row>, gone: seq<bool>, request: Request, aliases: set<string>, first: set<string>)
    requires MarksTargets(rows, gone, request, aliases) && aliases <= first
    ensures Shrinks(rows, Survivors(rows, gone), request, first)
  {
    SurvivorsAreRows(rows, gone);
    KeepSurvivors(rows, gone, request, first);
    KeepMembers(rows, request, first);
    if Keep(rows, request, first) == rows {
      forall k | 0 <= k < |rows| ensures !gone[k] {
        assert rows[k] in Keep(rows, request, first);
      }
      NothingMarked(rows, gone);
    }
  }

  lemma WholeShrinks(rows: seq<Row>, request: Request, aliases: set<string>, first: set<string>)
    requires aliases <= first
    ensures Shrinks(rows, Keep(rows, request, aliases), request, first)
  {
    KeepMembers(rows, request, aliases);
    KeepAbsorbs(rows, request, first, aliases);
  }

  /** The part of the invariant that does not speak of coverage. */
  lemma DeletionKeeps(v: Server, v': Server, request: Request, left: Left, rows: seq<Row>, first: set<string>,
                      goal: Tables)
    requires Kept(v, request, first, goal) && left in v.running
    requires v'.purge == WithTable(v.purge, left.table, rows) && v'.running <= v.running
    requires Shrinks(v.purge.tables[left.table], rows, request, first)
    ensures Aims(v'.purge, request, first, goal) && RunningOk(v', request, first, goal) && Recorded(v', request, goal)
  {
    AliasesShrink(v.purge.tables[left.table], rows, request);
    assert Aliases(v'.purge, request) <= Aliases(v.purge, request);
    if FirstFinal(v.purge, goal) { assert FirstFinal(v'.purge, goal); }
  }

  lemma GoesOnKeeps(v: Server, request: Request, left: Left, gone: seq<bool>, first: set<string>, goal: Tables)
    requires Kept(v, request, first, goal) && Possible(v, request, GoesOn(left, gone))
    ensures Kept(Next(v, request, GoesOn(left, gone)), request, first, goal)
  {
    var v', rows := Next(v, request, GoesOn(left, gone)), v.purge.tables[left.table];
    PartShrinks(rows, gone, request, left.aliases, first);
    DeletionKeeps(v, v', request, left, Survivors(rows, gone), first, goal);
    forall r | r in v'.purge.tables[ALIAS_TABLE] && Targets(request, first, r)
      ensures || Targets(request, Aliases(v'.purge, request), r)
              || exists l <- v'.running :: l.table == ALIAS_TABLE && Targets(request, l.aliases, r)
    {
      if left.table == ALIAS_TABLE && Targets(request, Aliases(v.purge, request), r) {
        assert Targets(request, left.aliases, r);
      }
    }
  }

  lemma EndsKeeps(v: Server, request: Request, left: Left, first: set<string>, goal: Tables)
    requires Kept(v, request, first, goal) && Possible(v, request, Ends(left))
    ensures Kept(Next(v, request, Ends(left)), request, first, goal)
  {
    var v', rows := Next(v, request, Ends(left)), v.purge.tables[left.table];
    WholeShrinks(rows, request, left.aliases, first);
    DeletionKeeps(v, v', request, left, Keep(rows, request, left.aliases), first, goal);
    KeepMembers(rows, request, left.aliases);
    forall r | r in v'.purge.tables[ALIAS_TABLE] && Targets(request, first, r)
      ensures || Targets(request, Aliases(v'.purge, request), r)
              || exists l <- v'.running :: l.table == ALIAS_TABLE && Targets(request, l.aliases, r)
    {
      if !Targets(request, Aliases(v.purge, request), r) || left.table == ALIAS_TABLE {
        var l :| l in v.running && l.table == ALIAS_TABLE && Targets(request, l.aliases, r);
        assert l in v'.running;
      }
    }
  }

  lemma {:induction false} HistoryKeeps(v: Server, request: Request, events: seq<Event>, first: set<string>,
                                        goal: Tables)
    requires Kept(v, request, first, goal) && History(v, request, events)
    ensures Kept(Finally(v, request, events), request, first, goal)
    decreases |events|
  {
    if events != [] {
      match events[0] {
        case Attempt(step) => AttemptKeeps(v, request, step, first, goal);
        case GoesOn(left, gone) => GoesOnKeeps(v, request, left, gone, first, goal);
        case Ends(left) => EndsKeeps(v, request, left, first, goal);
      }
      HistoryKeeps(Next(v, request, events[0]), request, events[1..], first, goal);
    }
  }

  /** Wherever attempts were cut off, and however the deletions they left running interleave with later
      attempts: once completion is recorded and every deletion left running has ended, every table holds
      exactly the rows outside the first attempt's target, in their old order. */
  lemma ResumedDeletionsReachGoal(start: Tables, request: Request, events: seq<Event>)
    requires History(Server(State(start, false), {}), request, events)
    requires var v := Finally(Server(State(start, false), {}), request, events); v.purge.completed && v.running == {}
    ensures Finally(Server(State(start, false), {}), request, events).purge.tables == Goal(start, request)
  {
    var first, goal := LinkedAliases(start[ALIAS_TABLE], request), Goal(start, request);
    var v := Finally(Server(State(start, false), {}), request, events);
    GoalIsKept(start, request);
    HistoryKeeps(Server(State(start, false), {}), request, events, first, goal);
    var rows := v.purge.tables[ALIAS_TABLE];
    assert forall r <- rows :: !Targets(request, first, r);
    KeepAll(rows, request, first);
    assert rows == goal[ALIAS_TABLE];
  }

  lemma {:induction false} KeepAll(rows: seq<Row>, request: Request, aliases: set<string>)
    requires forall r <- rows :: !Targets(request, aliases, r)
    ensures Keep(rows, request, aliases) == rows
  {
    if rows != [] { KeepAll(rows[1..], request, aliases); }
  }
}
