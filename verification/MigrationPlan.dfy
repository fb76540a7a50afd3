/** The migration ledger check shared by both databases: the applied rows must be an exact prefix
    of the release's file sequence, and the rest of the files is the plan. */
module MigrationPlan {
  import opened Options

  datatype Migration = Migration(version: nat, name: string, checksum: string)

  function InsertByVersion(m: Migration, rows: seq<Migration>): seq<Migration> {
    if rows == [] || m.version <= rows[0].version then [m] + rows
    else [rows[0]] + InsertByVersion(m, rows[1..])
  }

  function SortByVersion(rows: seq<Migration>): seq<Migration> {
    if rows == [] then [] else InsertByVersion(rows[0], SortByVersion(rows[1..]))
  }

  function Versions(rows: seq<Migration>): set<nat> {
    set m | m in rows :: m.version
  }

  function Names(rows: seq<Migration>): set<string> {
    set m | m in rows :: m.name
  }

  /** None when the ledger drifted; otherwise the files still to apply. */
  function Plan(files: seq<Migration>, applied: seq<Migration>): Option<seq<Migration>> {
    var rows := SortByVersion(applied);
    if |Versions(rows)| != |rows| || |Names(rows)| != |rows| || |rows| > |files| then None
    else if exists i :: 0 <= i < |rows| && rows[i] != files[i] then None
    else Some(files[|rows|..])
  }

  /** Discovery numbers the files from one without gaps. */
  predicate Contiguous(files: seq<Migration>) {
    forall i :: 0 <= i < |files| ==> files[i].version == i + 1
  }

  predicate DistinctNames(files: seq<Migration>) {
    forall i, j :: 0 <= i < j < |files| ==> files[i].name != files[j].name
  }

  predicate Ordered(rows: seq<Migration>) {
    forall i, j :: 0 <= i < j < |rows| ==> rows[i].version <= rows[j].version
  }

  lemma {:induction false} InsertPermutes(m: Migration, rows: seq<Migration>)
    ensures multiset(InsertByVersion(m, rows)) == multiset{m} + multiset(rows)
  {
    if rows != [] && m.version > rows[0].version {
      InsertPermutes(m, rows[1..]);
      assert rows == [rows[0]] + rows[1..];
    }
  }

  lemma {:induction false} InsertIsOrdered(m: Migration, rows: seq<Migration>)
    requires Ordered(rows)
    ensures Ordered(InsertByVersion(m, rows))
  {
    if rows != [] && m.version > rows[0].version {
      var rest := InsertByVersion(m, rows[1..]);
      InsertIsOrdered(m, rows[1..]);
      InsertPermutes(m, rows[1..]);
      forall k | 0 <= k < |rest| ensures rows[0].version <= rest[k].version {
        assert rest[k] in multiset(rest);
      }
    }
  }

  lemma {:induction false} SortIsOrdered(rows: seq<Migration>)
    ensures Ordered(SortByVersion(rows)) && multiset(SortByVersion(rows)) == multiset(rows)
  {
    if rows != [] {
      SortIsOrdered(rows[1..]);
      InsertIsOrdered(rows[0], SortByVersion(rows[1..]));
      InsertPermutes(rows[0], SortByVersion(rows[1..]));
      assert rows == [rows[0]] + rows[1..];
    }
  }

  predicate StrictlyOrdered(rows: seq<Migration>) {
    forall i, j :: 0 <= i < j < |rows| ==> rows[i].version < rows[j].version
  }

  /** Of two sorted arrangements of the same rows, both start with the same row when versions differ. */
  lemma SortedStartsAlike(a: seq<Migration>, b: seq<Migration>)
    requires Ordered(a) && StrictlyOrdered(b) && multiset(a) == multiset(b) && a != []
    ensures b != [] && a[0] == b[0]
  {
    assert a[0] in multiset(a) && a[0] in multiset(b);
    assert b[0] in multiset(b) && b[0] in multiset(a);
    var i, j :| 0 <= i < |a| && 0 <= j < |b| && a[i] == b[0] && b[j] == a[0];
    assert j == 0;
  }

  /** Only one ordering of the rows is sorted when all versions differ. */
  lemma {:induction false} SortedIsUnique(a: seq<Migration>, b: seq<Migration>)
    requires Ordered(a) && StrictlyOrdered(b) && multiset(a) == multiset(b)
    ensures a == b
  {
    assert |a| == |multiset(a)| == |multiset(b)| == |b|;
    if a != [] {
      SortedStartsAlike(a, b);
      assert a == [a[0]] + a[1..] && b == [b[0]] + b[1..];
      assert multiset(a[1..]) == multiset(a) - multiset{a[0]};
      SortedIsUnique(a[1..], b[1..]);
    }
  }

  lemma {:induction false} VersionCount(rows: seq<Migration>)
    requires StrictlyOrdered(rows)
    ensures |Versions(rows)| == |rows|
  {
    if rows != [] {
      var rest := rows[1..];
      VersionCount(rest);
      assert forall m :: m in rows <==> m == rows[0] || m in rest;
      assert Versions(rows) == Versions(rest) + {rows[0].version};
      assert rows[0].version !in Versions(rest);
    }
  }

  lemma {:induction false} NameCount(rows: seq<Migration>)
    requires DistinctNames(rows)
    ensures |Names(rows)| == |rows|
  {
    if rows != [] {
      var rest := rows[1..];
      NameCount(rest);
      assert forall m :: m in rows <==> m == rows[0] || m in rest;
      assert Names(rows) == Names(rest) + {rows[0].name};
      assert rows[0].name !in Names(rest);
    }
  }

  /** The check accepts a ledger, in whatever order it is read, exactly when its rows are the first
      files of the release; the plan is then exactly the remaining files, in order. */
  lemma PlanAcceptsExactlyPrefixes(files: seq<Migration>, applied: seq<Migration>)
    requires Contiguous(files) && DistinctNames(files)
    ensures Plan(files, applied).Some? <==>
            |applied| <= |files| && multiset(applied) == multiset(files[..|applied|])
    ensures Plan(files, applied).Some? ==> Plan(files, applied).value == files[|applied|..]
  {
    var rows := SortByVersion(applied);
    SortIsOrdered(applied);
    assert |rows| == |multiset(rows)| == |applied|;
    if |applied| <= |files| && multiset(applied) == multiset(files[..|applied|]) {
      SortedIsUnique(rows, files[..|applied|]);
      VersionCount(rows);
      NameCount(rows);
    }
    if Plan(files, applied).Some? {
      assert rows == files[..|rows|];
    }
  }

  /** A ledger that is kept in version order is accepted exactly when it is a prefix of the files. */
  lemma PlanOfOrderedLedger(files: seq<Migration>, ledger: seq<Migration>)
    requires Contiguous(files) && DistinctNames(files) && Contiguous(ledger)
    ensures Plan(files, ledger).Some? <==> ledger <= files
    ensures Plan(files, ledger).Some? ==> Plan(files, ledger).value == files[|ledger|..]
  {
    PlanAcceptsExactlyPrefixes(files, ledger);
    if Plan(files, ledger).Some? {
      SortedIsUnique(ledger, files[..|ledger|]);
    }
    if ledger <= files {
      assert files[..|ledger|] == ledger;
    }
  }
}
