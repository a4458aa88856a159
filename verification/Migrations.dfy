// The migration runner: load the scripts, apply the missing ones, revert the newest ones.
module Migrations {
  import opened Prelude

  // ----- loading -----

  datatype Direction = Up | Down | Neither

  // A file name, cut at its first underscore; `version` is absent when the part before it is not a number.
  datatype File =
    | NotSql
    | NoUnderscore
    | Script(version: Option<int64>, direction: Direction, name: string, body: string)

  datatype Migration = Migration(version: int64, name: string, up: string, down: string)

  datatype Loaded = Failed | List(migrations: seq<Migration>)

  // The map entry the loop has built for a version: later files win.
  function Merged(m: Migration, f: File): Migration
    requires f.Script?
  {
    if f.direction.Up? then m.(name := f.name, up := f.body)
    else if f.direction.Down? then m.(name := f.name, down := f.body) else m
  }

  function Added(byVersion: map<int64, Migration>, f: File): map<int64, Migration> {
    if f.Script? && f.version.Some? then
      var v := f.version.value;
      byVersion[v := Merged(if v in byVersion then byVersion[v] else Migration(v, "", "", ""), f)]
    else byVersion
  }

  function ByVersion(files: seq<File>, n: nat): map<int64, Migration>
    requires n <= |files|
  {
    if n == 0 then map[] else Added(ByVersion(files, n - 1), files[n - 1])
  }

  predicate IsScript(f: File, v: int64, direction: Direction) {
    f.Script? && f.version == Some(v) && f.direction == direction
  }

  // No file from i on is the version's script in this direction.
  predicate NoneFrom(files: seq<File>, i: nat, n: nat, v: int64, direction: Direction)
    requires n <= |files|
  {
    forall j :: i <= j < n ==> !IsScript(files[j], v, direction)
  }

  /** What loading makes of the files of one version: each script is that of the last file in its
      direction, or none, and the name that of the last file in either. */
  lemma {:induction false} LastFileWins(files: seq<File>, n: nat, v: int64, i: nat)
    requires n <= |files| && forall j :: 0 <= j < n && files[j].Script? ==> !files[j].direction.Neither?
    ensures v in ByVersion(files, n) <==> !NoneFrom(files, 0, n, v, Up) || !NoneFrom(files, 0, n, v, Down)
    ensures v in ByVersion(files, n) ==>
      var m := ByVersion(files, n)[v];
      && m.version == v
      && (NoneFrom(files, 0, n, v, Up) ==> m.up == "") && (NoneFrom(files, 0, n, v, Down) ==> m.down == "")
      && (i < n && IsScript(files[i], v, Up) && NoneFrom(files, i + 1, n, v, Up) ==>
            m.up == files[i].body && (NoneFrom(files, i + 1, n, v, Down) ==> m.name == files[i].name))
      && (i < n && IsScript(files[i], v, Down) && NoneFrom(files, i + 1, n, v, Down) ==>
            m.down == files[i].body && (NoneFrom(files, i + 1, n, v, Up) ==> m.name == files[i].name))
  {
    if n > 0 {
      LastFileWins(files, n - 1, v, i);
    }
  }

  predicate Sorted(list: seq<Migration>) {
    forall i, j :: 0 <= i < j < |list| ==> list[i].version < list[j].version
  }

  function Inserted(list: seq<Migration>, m: Migration): seq<Migration> {
    if list == [] || list[|list| - 1].version < m.version then list + [m]
    else Inserted(list[..|list| - 1], m) + [list[|list| - 1]]
  }

  predicate Below(list: seq<Migration>, v: int64) {
    forall x :: x in list ==> x.version < v
  }

  lemma SortedAppend(list: seq<Migration>, m: Migration)
    requires Sorted(list) && (Below(list, m.version) || list == [] || list[|list| - 1].version < m.version)
    ensures Sorted(list + [m])
  {
  }

  lemma {:induction false} InsertedMembers(list: seq<Migration>, m: Migration)
    ensures forall x :: x in Inserted(list, m) <==> x == m || x in list
  {
    if list != [] && list[|list| - 1].version >= m.version {
      InsertedMembers(list[..|list| - 1], m);
      assert list == list[..|list| - 1] + [list[|list| - 1]];
    }
  }

  lemma InitBelow(list: seq<Migration>)
    requires Sorted(list) && list != []
    ensures Sorted(list[..|list| - 1]) && Below(list[..|list| - 1], list[|list| - 1].version)
  {
  }

  lemma {:induction false} InsertedSorted(list: seq<Migration>, m: Migration)
    requires Sorted(list) && forall x :: x in list ==> x.version != m.version
    ensures Sorted(Inserted(list, m))
  {
    hide Sorted;
    if list == [] || list[|list| - 1].version < m.version {
      SortedAppend(list, m);
    } else {
      var init, last := list[..|list| - 1], list[|list| - 1];
      assert last in list;
      InitBelow(list);
      InsertedSorted(init, m);
      InsertedMembers(init, m);
      SortedAppend(Inserted(init, m), last);
    }
  }

  predicate AllComplete(byVersion: map<int64, Migration>) {
    forall v :: v in byVersion ==> byVersion[v].up != "" && byVersion[v].down != ""
  }

  // The list is the map's values.
  ghost predicate Lists(list: seq<Migration>, byVersion: map<int64, Migration>) {
    forall m :: m in list <==> m.version in byVersion && byVersion[m.version] == m
  }

  /** The list holds one complete migration for each version, ascending; loading fails exactly when
      some .sql file is misnamed or some version lacks a script. */
  method LoadMigrations(files: seq<File>) returns (r: Loaded)
    ensures r.Failed? <==>
      (exists i :: 0 <= i < |files| && (files[i].NoUnderscore? || (files[i].Script? && (files[i].version.None? || files[i].direction.Neither?))))
      || (exists v :: v in ByVersion(files, |files|) && (ByVersion(files, |files|)[v].up == "" || ByVersion(files, |files|)[v].down == ""))
    ensures r.List? ==> Sorted(r.migrations) && Lists(r.migrations, ByVersion(files, |files|))
  {
    var byVersion: map<int64, Migration> := map[];
    for i := 0 to |files|
      invariant byVersion == ByVersion(files, i)
      invariant forall v :: v in byVersion ==> byVersion[v].version == v
      invariant forall k :: 0 <= k < i ==>
        !files[k].NoUnderscore? && (files[k].Script? ==> files[k].version.Some? && !files[k].direction.Neither?)
    {
      var f := files[i];
      if f.NotSql? {
        continue;
      }
      if f.NoUnderscore? || f.version.None? {
        return Failed;
      }
      var m := if f.version.value in byVersion then byVersion[f.version.value] else Migration(f.version.value, "", "", "");
      match f.direction {
        case Up => m := m.(name := f.name, up := f.body);
        case Down => m := m.(name := f.name, down := f.body);
        case Neither => return Failed;
      }
      assert Added(byVersion, f) == byVersion[f.version.value := m];
      byVersion := byVersion[f.version.value := m];
    }
    r := Collect(byVersion);
  }

  // Go visits the map in an arbitrary order, then sorts.
  method Collect(byVersion: map<int64, Migration>) returns (r: Loaded)
    requires forall v :: v in byVersion ==> byVersion[v].version == v
    ensures r.Failed? <==> !AllComplete(byVersion)
    ensures r.List? ==> Sorted(r.migrations) && Lists(r.migrations, byVersion)
  {
    var list: seq<Migration> := [];
    var todo := byVersion.Keys;
    while todo != {}
      invariant todo <= byVersion.Keys && Sorted(list)
      invariant forall v :: v in byVersion && v !in todo ==> byVersion[v].up != "" && byVersion[v].down != ""
      invariant forall m :: m in list <==> m.version in byVersion && m.version !in todo && byVersion[m.version] == m
      decreases |todo|
    {
      var v :| v in todo;
      if byVersion[v].up == "" {
        return Failed;
      }
      if byVersion[v].down == "" {
        return Failed;
      }
      InsertedSorted(list, byVersion[v]);
      InsertedMembers(list, byVersion[v]);
      list := Inserted(list, byVersion[v]);
      todo := todo - {v};
    }
    return List(list);
  }

  // ----- running -----

  function Versions(list: seq<Migration>, n: nat): set<int64>
    requires n <= |list|
  {
    set i | 0 <= i < n :: list[i].version
  }

  // The versions still to apply among the first n, oldest first.
  function Missing(list: seq<Migration>, applied: set<int64>, n: nat): seq<int64>
    requires n <= |list|
  {
    if n == 0 then []
    else if list[n - 1].version in applied then Missing(list, applied, n - 1)
    else Missing(list, applied, n - 1) + [list[n - 1].version]
  }

  // The applied versions at or after position n, newest first.
  function Present(list: seq<Migration>, applied: set<int64>, n: nat): seq<int64>
    requires n <= |list|
    decreases |list| - n
  {
    if n == |list| then []
    else if list[n].version in applied then Present(list, applied, n + 1) + [list[n].version]
    else Present(list, applied, n + 1)
  }

  function Reversed(vs: seq<int64>): seq<int64> {
    if vs == [] then [] else [vs[|vs| - 1]] + Reversed(vs[..|vs| - 1])
  }

  // The versions of positions lo to hi.
  function Slice(list: seq<Migration>, lo: nat, hi: nat): seq<int64>
    requires lo <= hi <= |list|
  {
    if lo == hi then [] else Slice(list, lo, hi - 1) + [list[hi - 1].version]
  }

  lemma InVersions(list: seq<Migration>, n: nat, i: nat)
    requires Sorted(list) && n <= |list| && i < |list|
    ensures list[i].version in Versions(list, n) <==> i < n
  {
  }

  lemma {:induction false} MissingFrom(list: seq<Migration>, n: nat, m: nat)
    requires Sorted(list) && n <= m <= |list|
    ensures Missing(list, Versions(list, n), n) == []
    ensures Missing(list, Versions(list, n), m) == Slice(list, n, m)
    decreases m
  {
    hide Sorted, Versions;
    if m > n {
      MissingFrom(list, n, m - 1);
      InVersions(list, n, m - 1);
    } else {
      MissingNone(list, n, n);
    }
  }

  lemma {:induction false} MissingNone(list: seq<Migration>, n: nat, m: nat)
    requires Sorted(list) && m <= n <= |list|
    ensures Missing(list, Versions(list, n), m) == []
  {
    hide Sorted, Versions;
    if m > 0 {
      MissingNone(list, n, m - 1);
      InVersions(list, n, m - 1);
    }
  }

  lemma {:induction false} PresentFrom(list: seq<Migration>, n: nat, k: nat)
    requires Sorted(list) && n <= |list| && k <= |list|
    ensures Present(list, Versions(list, n), k) == if k <= n then Reversed(Slice(list, k, n)) else []
    decreases |list| - k
  {
    hide Sorted, Versions;
    if k < |list| {
      PresentFrom(list, n, k + 1);
      InVersions(list, n, k);
      if k < n {
        SliceFirst(list, k, n);
        ReversedCons(list[k].version, Slice(list, k + 1, n));
      }
    }
  }

  lemma {:induction false} SliceFirst(list: seq<Migration>, lo: nat, hi: nat)
    requires lo < hi <= |list|
    ensures Slice(list, lo, hi) == [list[lo].version] + Slice(list, lo + 1, hi)
  {
    if lo + 1 < hi {
      SliceFirst(list, lo, hi - 1);
    }
  }

  lemma {:induction false} ReversedCons(v: int64, vs: seq<int64>)
    ensures Reversed([v] + vs) == Reversed(vs) + [v]
  {
    if vs != [] {
      ReversedCons(v, vs[..|vs| - 1]);
      assert ([v] + vs)[..|vs|] == [v] + vs[..|vs| - 1];
    } else {
      assert [v] + vs == [v] && [v][..0] == [];
    }
  }

  lemma {:induction false} SliceAt(list: seq<Migration>, lo: nat, hi: nat, i: nat)
    requires lo <= hi <= |list| && i <= hi - lo
    ensures |Slice(list, lo, hi)| == hi - lo
    ensures Slice(list, lo, hi)[..i] == Slice(list, lo, lo + i)
  {
    if i < hi - lo {
      SliceAt(list, lo, hi - 1, i);
    } else {
      SliceLength(list, lo, hi);
    }
  }

  lemma {:induction false} SliceLength(list: seq<Migration>, lo: nat, hi: nat)
    requires lo <= hi <= |list|
    ensures |Slice(list, lo, hi)| == hi - lo
  {
    if lo < hi { SliceLength(list, lo, hi - 1); }
  }

  lemma {:induction false} SliceElements(list: seq<Migration>, lo: nat, hi: nat)
    requires lo <= hi <= |list|
    ensures Versions(list, lo) + Elements(Slice(list, lo, hi)) == Versions(list, hi)
  {
    if lo < hi {
      SliceElements(list, lo, hi - 1);
      assert Versions(list, hi) == Versions(list, hi - 1) + {list[hi - 1].version};
      assert Elements(Slice(list, lo, hi)) == Elements(Slice(list, lo, hi - 1)) + {list[hi - 1].version};
    }
  }

  /** Stopping anywhere, MigrateUp takes a prefix of the version list to a longer one. */
  lemma UpKeepsPrefix(list: seq<Migration>, n: nat, ran: seq<int64>)
    requires Sorted(list) && n <= |list| && ran <= Missing(list, Versions(list, n), |list|)
    ensures n + |ran| <= |list| && ran == Slice(list, n, n + |ran|)
    ensures Versions(list, n) + Elements(ran) == Versions(list, n + |ran|)
  {
    hide Sorted, Versions, Missing;
    MissingFrom(list, n, |list|);
    SliceLength(list, n, |list|);
    SliceAt(list, n, |list|, |ran|);
    SliceElements(list, n, n + |ran|);
  }

  lemma {:induction false} ReversedPrefix(list: seq<Migration>, lo: nat, hi: nat, k: nat)
    requires lo <= hi <= |list| && k <= hi - lo
    ensures |Reversed(Slice(list, lo, hi))| == hi - lo
    ensures Reversed(Slice(list, lo, hi))[..k] == Reversed(Slice(list, hi - k, hi))
  {
    hide Reversed;
    NothingReversed();
    if lo < hi {
      var v, init := list[hi - 1].version, Reversed(Slice(list, lo, hi - 1));
      SliceSnoc(list, lo, hi);
      if k > 0 {
        SliceSnoc(list, hi - k, hi);
        ReversedPrefix(list, lo, hi - 1, k - 1);
        ConsPrefix(v, init, k);
      } else {
        ReversedPrefix(list, lo, hi - 1, 0);
      }
    }
  }

  lemma NothingReversed()
    ensures Reversed([]) == []
  {
  }

  lemma ConsPrefix(v: int64, vs: seq<int64>, k: nat)
    requires 0 < k <= |vs| + 1
    ensures ([v] + vs)[..k] == [v] + vs[..k - 1]
  {
  }

  lemma SliceSnoc(list: seq<Migration>, lo: nat, hi: nat)
    requires lo < hi <= |list|
    ensures Reversed(Slice(list, lo, hi)) == [list[hi - 1].version] + Reversed(Slice(list, lo, hi - 1))
  {
    assert Slice(list, lo, hi)[..|Slice(list, lo, hi)| - 1] == Slice(list, lo, hi - 1);
  }

  lemma {:induction false} ReversedElements(vs: seq<int64>)
    ensures Elements(Reversed(vs)) == Elements(vs)
  {
    if vs != [] {
      var init, v := vs[..|vs| - 1], vs[|vs| - 1];
      ReversedElements(init);
      assert vs == init + [v];
      assert Elements(vs) == Elements(init) + {v} && Elements([v] + Reversed(init)) == Elements(Reversed(init)) + {v};
    }
  }

  lemma {:induction false} ReversedTwice(vs: seq<int64>)
    ensures Reversed(Reversed(vs)) == vs
  {
    if vs != [] {
      var init, v := vs[..|vs| - 1], vs[|vs| - 1];
      ReversedTwice(init);
      ReversedCons(v, Reversed(init));
      assert vs == init + [v];
    }
  }

  lemma {:induction false} SliceApart(list: seq<Migration>, lo: nat, hi: nat)
    requires Sorted(list) && lo <= hi <= |list|
    ensures Elements(Slice(list, lo, hi)) !! Versions(list, lo)
  {
    hide Sorted, Versions;
    if lo < hi {
      SliceApart(list, lo, hi - 1);
      InVersions(list, lo, hi - 1);
      assert Elements(Slice(list, lo, hi)) == Elements(Slice(list, lo, hi - 1)) + {list[hi - 1].version};
    }
  }

  /** Stopping anywhere, MigrateDown takes a prefix of the version list to a shorter one. */
  lemma DownKeepsPrefix(list: seq<Migration>, n: nat, reverted: seq<int64>)
    requires Sorted(list) && n <= |list| && reverted <= Present(list, Versions(list, n), 0)
    ensures |reverted| <= n && reverted == Reversed(Slice(list, n - |reverted|, n))
    ensures Versions(list, n) - Elements(reverted) == Versions(list, n - |reverted|)
  {
    hide Sorted, Versions, Present, Reversed, Slice;
    PresentFrom(list, n, 0);
    ReversedPrefix(list, 0, n, 0);
    var k := |reverted|;
    ReversedPrefix(list, 0, n, k);
    ReversedElements(Slice(list, n - k, n));
    SliceElements(list, n - k, n);
    SliceApart(list, n - k, n);
  }

  /** From a fully applied schema, MigrateUp after MigrateDown reapplies exactly the reverted
      versions, in reverse order; if the last reverted version went unreported because its
      acknowledgement was lost, it is reapplied first. */
  lemma UpUndoesDown(list: seq<Migration>, reverted: seq<int64>, doubt: seq<int64>)
    requires Sorted(list) && reverted + doubt <= Present(list, Versions(list, |list|), 0)
    ensures Missing(list, Versions(list, |list|) - Elements(reverted + doubt), |list|) == Reversed(doubt) + Reversed(reverted)
  {
    hide Sorted, Versions, Present, Reversed, Slice, Missing;
    var gone := reverted + doubt;
    DownKeepsPrefix(list, |list|, gone);
    MissingFrom(list, |list| - |gone|, |list|);
    ReversedTwice(Slice(list, |list| - |gone|, |list|));
    ReversedAppend(reverted, doubt);
  }

  lemma {:induction false} ReversedAppend(x: seq<int64>, y: seq<int64>)
    ensures Reversed(x + y) == Reversed(y) + Reversed(x)
  {
    if y == [] {
      assert x + y == x;
    } else {
      assert (x + y)[..|x + y| - 1] == x + y[..|y| - 1];
      ReversedAppend(x, y[..|y| - 1]);
    }
  }

  lemma {:induction false} VersionsCount(list: seq<Migration>, n: nat)
    requires Sorted(list) && n <= |list|
    ensures |Versions(list, n)| == n
  {
    hide Sorted;
    if n > 0 {
      VersionsCount(list, n - 1);
      InVersions(list, n - 1, n - 1);
      assert Versions(list, n) == Versions(list, n - 1) + {list[n - 1].version};
    }
  }

  // Where one migration's transaction stops, if it does; AckLost commits without the reply arriving.
  datatype Fault = Runs | ScriptFails | RowFails | CommitFails | AckLost

  // Versions the run changed but, its commit unacknowledged, does not report.
  function Doubt(ok: bool, list: seq<Migration>, at: nat, fault: nat -> Fault): seq<int64> {
    if !ok && at < |list| && fault(at).AckLost? then [list[at].version] else []
  }

  lemma ElementsAppend(x: seq<int64>, y: seq<int64>)
    ensures Elements(x + y) == Elements(x) + Elements(y)
  {
  }

  lemma PlusTwice(a: set<int64>, b: set<int64>, c: set<int64>)
    ensures a + b + c == a + (b + c)
  {
  }

  lemma MinusTwice(a: set<int64>, b: set<int64>, c: set<int64>)
    ensures a - b - c == a - (b + c)
  {
  }

  lemma UpLeaves(list: seq<Migration>, was: set<int64>, ran: seq<int64>, doubt: seq<int64>, now: set<int64>)
    requires Sorted(list) && |was| <= |list| && was == Versions(list, |was|)
    requires ran + doubt <= Missing(list, was, |list|) && now == was + Elements(ran) + Elements(doubt)
    ensures now == was + Elements(ran + doubt)
    ensures |now| == |was| + |ran| + |doubt| <= |list| && now == Versions(list, |now|)
  {
    hide Sorted, Versions, Missing, Elements, Slice;
    var done := ran + doubt;
    ElementsAppend(ran, doubt);
    PlusTwice(was, Elements(ran), Elements(doubt));
    UpKeepsPrefix(list, |was|, done);
    assert |done| == |ran| + |doubt|;
    assert now == was + Elements(done);
    assert now == Versions(list, |was| + |done|);
    VersionsCount(list, |was| + |done|);
  }

  lemma DownLeaves(list: seq<Migration>, was: set<int64>, reverted: seq<int64>, doubt: seq<int64>, now: set<int64>)
    requires Sorted(list) && |was| <= |list| && was == Versions(list, |was|)
    requires reverted + doubt <= Present(list, was, 0) && now == was - Elements(reverted) - Elements(doubt)
    ensures now == was - Elements(reverted + doubt)
    ensures |now| == |was| - |reverted| - |doubt| && |now| <= |list| && now == Versions(list, |now|)
  {
    hide Sorted, Versions, Present, Elements, Slice, Reversed;
    var gone := reverted + doubt;
    ElementsAppend(reverted, doubt);
    MinusTwice(was, Elements(reverted), Elements(doubt));
    DownKeepsPrefix(list, |was|, gone);
    assert |gone| == |reverted| + |doubt|;
    assert now == was - Elements(gone);
    assert now == Versions(list, |was| - |gone|);
    VersionsCount(list, |was| - |gone|);
  }

  // Where a run that stopped at the missing version at position `at` stands in the list.
  lemma UpStopsAt(list: seq<Migration>, n: nat, at: nat)
    requires Sorted(list) && n <= |list| && at < |list| && list[at].version !in Versions(list, n)
    ensures n <= at && Missing(list, Versions(list, n), at) == Slice(list, n, at) && |Slice(list, n, at)| == at - n
  {
    hide Sorted, Versions, Missing, Slice;
    InVersions(list, n, at);
    MissingFrom(list, n, at);
    SliceLength(list, n, at);
  }

  lemma DownStopsAt(list: seq<Migration>, n: nat, at: nat)
    requires Sorted(list) && n <= |list| && at < |list| && list[at].version in Versions(list, n)
    ensures at < n && |Present(list, Versions(list, n), at + 1)| == n - at - 1
  {
    hide Sorted, Versions, Present, Reversed, Slice;
    InVersions(list, n, at);
    PresentFrom(list, n, at + 1);
    ReversedPrefix(list, at + 1, n, 0);
  }

  class Migrator {
    const list: seq<Migration>
    var applied: set<int64>  // schema_migrations
    var schema: set<int64>   // versions whose up script is in effect

    // The schema is what schema_migrations says, and that is a prefix of the version list.
    ghost predicate Valid()
      reads this
    {
      && Sorted(list) && schema == applied
      && |applied| <= |list| && applied == Versions(list, |applied|)
    }

    constructor (list: seq<Migration>)
      requires Sorted(list)
      ensures Valid() && this.list == list && applied == {}
    {
      this.list := list;
      applied, schema := {}, {};
    }

    // The script and its bookkeeping row, in one transaction: both or neither, whatever is reported.
    method WithTx(version: int64, up: bool, fault: Fault) returns (ok: bool)
      modifies this`applied, this`schema
      ensures ok == fault.Runs?
      ensures !fault.Runs? && !fault.AckLost? ==> applied == old(applied) && schema == old(schema)
      ensures (fault.Runs? || fault.AckLost?) && up ==>
        applied == old(applied) + {version} && schema == old(schema) + {version}
      ensures (fault.Runs? || fault.AckLost?) && !up ==>
        applied == old(applied) - {version} && schema == old(schema) - {version}
    {
      var script, row := schema, applied;
      if fault.ScriptFails? {
        return false;
      }
      script := if up then script + {version} else script - {version};
      if fault.RowFails? {
        return false;
      }
      row := if up then row + {version} else row - {version};
      if fault.CommitFails? {
        return false;
      }
      applied, schema := row, script;
      return !fault.AckLost?;
    }

    /** `at` is the position of the migration that failed. The report is exact, but for the version
        there if its commit was not acknowledged. */
    method MigrateUp(fault: nat -> Fault) returns (ran: seq<int64>, ok: bool, ghost at: nat)
      requires Valid()
      modifies this`applied, this`schema
      ensures Valid() && applied == old(applied) + Elements(ran + Doubt(ok, list, at, fault))
      ensures ran + Doubt(ok, list, at, fault) <= Missing(list, old(applied), |list|)
      ensures ok <==> ran == Missing(list, old(applied), |list|)
      ensures ok ==> applied == Versions(list, |list|)
      ensures !ok ==> at == |old(applied)| + |ran| < |list| && !fault(at).Runs?
    {
      hide Versions, Sorted, Missing, Elements, Slice;
      ran, ok, at := UpLoop(fault);
      UpLeaves(list, old(applied), ran, Doubt(ok, list, at, fault), applied);
      if ok {
        MissingFrom(list, |old(applied)|, |list|);
        SliceLength(list, |old(applied)|, |list|);
        assert Doubt(ok, list, at, fault) == [];
      } else {
        UpStopsAt(list, |old(applied)|, at);
      }
    }

    method UpLoop(fault: nat -> Fault) returns (ran: seq<int64>, ok: bool, ghost at: nat)
      requires schema == applied
      modifies this`applied, this`schema
      ensures schema == applied == old(applied) + Elements(ran) + Elements(Doubt(ok, list, at, fault))
      ensures ran + Doubt(ok, list, at, fault) <= Missing(list, old(applied), |list|)
      ensures ok <==> ran == Missing(list, old(applied), |list|)
      ensures !ok ==> at < |list| && list[at].version !in old(applied) && !fault(at).Runs?
      ensures !ok ==> ran == Missing(list, old(applied), at)
    {
      var was := applied;
      ran := [];
      at := 0;
      for i := 0 to |list|
        invariant ran == Missing(list, old(applied), i)
        invariant schema == applied == old(applied) + Elements(ran)
      {
        MissingGrows(list, old(applied), i + 1);
        if list[i].version in was {
          continue;
        }
        ok := WithTx(list[i].version, true, fault(i));
        assert Elements([list[i].version]) == {list[i].version};
        if !ok {
          at := i;
          return;
        }
        ElementsAppend(ran, [list[i].version]);
        ran := ran + [list[i].version];
      }
      ok := true;
    }

    // steps <= 0 means all.
    method MigrateDown(steps: int, fault: nat -> Fault) returns (reverted: seq<int64>, ok: bool, ghost at: nat)
      requires Valid()
      modifies this`applied, this`schema
      ensures Valid() && applied == old(applied) - Elements(reverted + Doubt(ok, list, at, fault))
      ensures reverted + Doubt(ok, list, at, fault) <= Present(list, old(applied), 0)
      ensures steps > 0 ==> |reverted| <= steps
      ensures ok <==> reverted == Present(list, old(applied), 0) || |reverted| == steps > 0
      ensures !ok ==> |old(applied)| == at + 1 + |reverted| && at < |list| && !fault(at).Runs?
    {
      hide Versions, Sorted, Present, Elements, Slice, Doubt;
      reverted, ok, at := DownLoop(steps, fault);
      DownLeaves(list, old(applied), reverted, Doubt(ok, list, at, fault), applied);
      if !ok {
        DownStopsAt(list, |old(applied)|, at);
      }
    }

    method DownLoop(steps: int, fault: nat -> Fault) returns (reverted: seq<int64>, ok: bool, ghost at: nat)
      requires schema == applied
      modifies this`applied, this`schema
      ensures schema == applied == old(applied) - Elements(reverted) - Elements(Doubt(ok, list, at, fault))
      ensures reverted + Doubt(ok, list, at, fault) <= Present(list, old(applied), 0)
      ensures steps > 0 ==> |reverted| <= steps
      ensures ok <==> reverted == Present(list, old(applied), 0) || |reverted| == steps > 0
      ensures !ok ==> at < |list| && list[at].version in old(applied) && !fault(at).Runs?
      ensures !ok ==> reverted == Present(list, old(applied), at + 1)
    {
      var was := applied;
      reverted := [];
      at := 0;
      var i := |list|;
      PresentGrows(list, old(applied), i);
      while i > 0
        invariant 0 <= i <= |list| && reverted == Present(list, old(applied), i)
        invariant schema == applied == old(applied) - Elements(reverted)
        invariant steps > 0 ==> |reverted| <= steps
      {
        PresentGrows(list, old(applied), i);
        if steps > 0 && |reverted| >= steps {
          return reverted, true, 0;
        }
        i := i - 1;
        PresentGrows(list, old(applied), i);
        if list[i].version !in was {
          continue;
        }
        ok := WithTx(list[i].version, false, fault(i));
        assert Elements([list[i].version]) == {list[i].version};
        if !ok {
          at := i;
          return;
        }
        ElementsAppend(reverted, [list[i].version]);
        reverted := reverted + [list[i].version];
      }
      ok := true;
    }
  }

  lemma {:induction false} MissingGrows(list: seq<Migration>, applied: set<int64>, n: nat)
    requires n <= |list|
    ensures Missing(list, applied, n) <= Missing(list, applied, |list|)
    decreases |list| - n
  {
    if n < |list| {
      MissingGrows(list, applied, n + 1);
    }
  }

  lemma {:induction false} PresentGrows(list: seq<Migration>, applied: set<int64>, n: nat)
    requires n <= |list|
    ensures Present(list, applied, n) <= Present(list, applied, 0)
  {
    if n > 0 {
      PresentGrows(list, applied, n - 1);
    }
  }
}
