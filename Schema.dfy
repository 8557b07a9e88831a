/**
  The relational store as the migrations see it through TypeORM's query
  runner: a map from table name to table, where a table is an ordered column
  list plus its row count, indices and foreign keys. Every driver call the
  core issues is an `Op`; `Step` gives its effect or `None` when the driver
  throws, and `Run` performs a list of calls in order, stopping at the first
  that throws, as a sequence of awaited calls does.
 */
module Schema {
  import opened Wrappers
  import opened JsValue

  /** A column as TypeORM's `TableColumnOptions`: a plain object. */
  type ColumnOptions = map<string, Value>

  datatype TableIndex = TableIndex(name: string, columnNames: seq<string>)

  datatype TableForeignKey = TableForeignKey(
    columnNames: seq<string>,
    referencedColumnNames: seq<string>,
    referencedTableName: string,
    onDelete: string)

  datatype Table = Table(
    columns: seq<ColumnOptions>,
    rowCount: nat,
    indices: seq<TableIndex>,
    foreignKeys: seq<TableForeignKey>)

  type Tables = map<string, Table>

  /** `column.name` */
  function ColumnName(c: ColumnOptions): Value { Lookup(c, "name") }

  /** A column object whose `name` property is `name`. */
  function Named(name: string, options: map<string, Value>): (c: ColumnOptions)
    ensures ColumnName(c) == Str(name)
  {
    options["name" := Str(name)]
  }

  /** `columns.map(col => col.name)` */
  function ColumnNames(columns: seq<ColumnOptions>): (names: seq<Value>)
    ensures |names| == |columns|
    ensures forall i :: 0 <= i < |columns| ==> names[i] == ColumnName(columns[i])
  {
    if |columns| == 0 then [] else [ColumnName(columns[0])] + ColumnNames(columns[1..])
  }

  /** Column names the database accepts in one table: strings, pairwise different. */
  predicate DistinctStringNames(columns: seq<ColumnOptions>)
  {
    && (forall i :: 0 <= i < |columns| ==> NameAt(columns, i).Str?)
    && (forall i, j :: 0 <= i < j < |columns| ==> NameAt(columns, i) != NameAt(columns, j))
  }

  /**
    The name of the column at `i`. `DistinctStringNames` quantifies over this
    term only, so its pairwise condition comes into play where a proof asks
    for it, through `DistinctStringNamesIff`.
   */
  function NameAt(columns: seq<ColumnOptions>, i: int): Value
    requires 0 <= i < |columns|
  {
    ColumnName(columns[i])
  }

  predicate HasIndex(indices: seq<TableIndex>, name: string)
  {
    exists i :: 0 <= i < |indices| && indices[i].name == name
  }

  function RemoveIndex(indices: seq<TableIndex>, name: string): (r: seq<TableIndex>)
    ensures !HasIndex(r, name)
    ensures forall x :: x in r <==> x in indices && x.name != name
  {
    if |indices| == 0 then []
    else if indices[0].name == name then RemoveIndex(indices[1..], name)
    else [indices[0]] + RemoveIndex(indices[1..], name)
  }

  function RemoveForeignKey(fks: seq<TableForeignKey>, fk: TableForeignKey): (r: seq<TableForeignKey>)
    ensures forall x :: x in r <==> x in fks && x != fk
  {
    if |fks| == 0 then []
    else if fks[0] == fk then RemoveForeignKey(fks[1..], fk)
    else [fks[0]] + RemoveForeignKey(fks[1..], fk)
  }

  function RemoveColumn(columns: seq<ColumnOptions>, name: string): (r: seq<ColumnOptions>)
    ensures forall c :: c in r <==> c in columns && ColumnName(c) != Str(name)
  {
    if |columns| == 0 then []
    else if ColumnName(columns[0]) == Str(name) then RemoveColumn(columns[1..], name)
    else [columns[0]] + RemoveColumn(columns[1..], name)
  }

  /** The table of that name, if there is one. */
  function TableIn(tables: Tables, name: string): (r: Option<Table>)
    ensures r.Some? <==> name in tables
    ensures r.Some? ==> r.value == tables[name]
  {
    if name in tables then Some(tables[name]) else None
  }

  lemma ColumnNamesAppend(a: seq<ColumnOptions>, b: seq<ColumnOptions>)
    ensures ColumnNames(a + b) == ColumnNames(a) + ColumnNames(b)
  {
  }

  /** Appending `a` and then `b` to a table's columns appends `a + b`. */
  lemma AppendColumnsTwice(tables: Tables, name: string, a: seq<ColumnOptions>, b: seq<ColumnOptions>)
    requires name in tables
    ensures var t := tables[name];
      var mid := tables[name := t.(columns := t.columns + a)];
      mid[name := mid[name].(columns := mid[name].columns + b)] == tables[name := t.(columns := t.columns + (a + b))]
  {
    var t := tables[name];
    assert (t.columns + a) + b == t.columns + (a + b);
  }

  /** A name is listed exactly when some column carries it. */
  lemma ColumnNamesMember(columns: seq<ColumnOptions>, x: Value)
    ensures x in ColumnNames(columns) <==> exists c :: c in columns && ColumnName(c) == x
  {
    if x in ColumnNames(columns) {
      var i :| 0 <= i < |columns| && ColumnNames(columns)[i] == x;
      assert columns[i] in columns;
    }
  }

  /** Replacing a table twice keeps the second replacement. */
  lemma ReplaceTwice(tables: Tables, name: string, a: Table, b: Table)
    ensures tables[name := a][name := b] == tables[name := b]
  {
  }

  /** Setting a table's columns twice keeps the second setting. */
  lemma SetColumnsTwice(tables: Tables, name: string, a: seq<ColumnOptions>, b: seq<ColumnOptions>)
    requires name in tables
    ensures var mid := tables[name := tables[name].(columns := a)];
      mid[name := mid[name].(columns := b)] == tables[name := tables[name].(columns := b)]
  {
  }

  /** A name no column of `all` carries is carried by no column drawn from `all`. */
  lemma NameAbsentFromSublist(sub: seq<ColumnOptions>, all: seq<ColumnOptions>, x: Value)
    requires forall d :: d in sub ==> d in all
    requires x !in ColumnNames(all)
    ensures x !in ColumnNames(sub)
  {
    ColumnNamesMember(all, x);
    ColumnNamesMember(sub, x);
  }

  /** Dropping a column the table does not have changes nothing. */
  lemma {:induction false} RemoveColumnAbsent(columns: seq<ColumnOptions>, name: string)
    requires Str(name) !in ColumnNames(columns)
    ensures RemoveColumn(columns, name) == columns
  {
    if |columns| > 0 {
      assert ColumnNames(columns) == [ColumnName(columns[0])] + ColumnNames(columns[1..]);
      RemoveColumnAbsent(columns[1..], name);
    }
  }

  /** Dropping one name leaves the presence of every other name as it was. */
  lemma RemoveColumnKeeps(columns: seq<ColumnOptions>, name: string, other: Value)
    requires other != Str(name)
    ensures other in ColumnNames(RemoveColumn(columns, name)) <==> other in ColumnNames(columns)
  {
    ColumnNamesMember(columns, other);
    ColumnNamesMember(RemoveColumn(columns, name), other);
  }

  /** Distinct string names, column by column: every name is a string and no two columns share one. */
  lemma DistinctStringNamesIff(columns: seq<ColumnOptions>)
    ensures DistinctStringNames(columns) <==>
      (forall i :: 0 <= i < |columns| ==> ColumnName(columns[i]).Str?) &&
      (forall i, j :: 0 <= i < j < |columns| ==> ColumnName(columns[i]) != ColumnName(columns[j]))
  {
    assert forall i :: 0 <= i < |columns| ==> NameAt(columns, i) == ColumnName(columns[i]);
  }

  /** Columns named by pairwise different strings have distinct string names. */
  lemma DistinctByNames(columns: seq<ColumnOptions>, names: seq<string>)
    requires |names| == |columns|
    requires forall i :: 0 <= i < |columns| ==> ColumnName(columns[i]) == Str(names[i])
    requires forall i, j :: 0 <= i < j < |names| ==> names[i] != names[j]
    ensures DistinctStringNames(columns)
  {
    DistinctStringNamesIff(columns);
  }

  /** A list headed by `c` has distinct string names when `c`'s name is a string the rest does not use. */
  lemma DistinctStringNamesCons(c: ColumnOptions, rest: seq<ColumnOptions>)
    ensures DistinctStringNames([c] + rest) <==>
      ColumnName(c).Str? && DistinctStringNames(rest) && ColumnName(c) !in ColumnNames(rest)
  {
    var all := [c] + rest;
    DistinctStringNamesIff(all);
    DistinctStringNamesIff(rest);
    assert forall i :: 0 <= i < |rest| ==> all[i + 1] == rest[i];
    if DistinctStringNames(all) {
      forall i, j | 0 <= i < j < |rest|
        ensures ColumnName(rest[i]) != ColumnName(rest[j])
      {
        assert ColumnName(all[i + 1]) != ColumnName(all[j + 1]);
      }
      forall i | 0 <= i < |rest|
        ensures ColumnName(rest[i]).Str?
      {
        assert ColumnName(all[i + 1]).Str?;
      }
      assert ColumnName(all[0]).Str?;
    }
    if ColumnName(c).Str? && DistinctStringNames(rest) && ColumnName(c) !in ColumnNames(rest) {
      forall i, j | 0 <= i < j < |all|
        ensures ColumnName(all[i]) != ColumnName(all[j])
      {
        assert all[j] == rest[j - 1];
        if i == 0 {
          assert ColumnNames(rest)[j - 1] == ColumnName(all[j]);
        } else {
          assert all[i] == rest[i - 1];
        }
      }
      forall i | 0 <= i < |all|
        ensures ColumnName(all[i]).Str?
      {
        if i > 0 {
          assert all[i] == rest[i - 1];
        }
      }
      assert DistinctStringNames(all);
    }
  }

  /** One call on the query runner (or one raw SQL statement). */
  datatype Op =
    | CreateTable(table: string, columns: seq<ColumnOptions>, ifNotExists: bool)
    | AddColumn(table: string, column: ColumnOptions)
    | DropColumn(table: string, columnName: string)
    | DropTable(table: string)
    | CreateIndex(table: string, index: TableIndex)
    | DropIndex(table: string, indexName: string)
    | CreateForeignKey(table: string, foreignKey: TableForeignKey)
    | DropForeignKey(table: string, foreignKey: TableForeignKey)
    | InsertRow(table: string)

  /**
    The effect of one call, or `None` when the driver throws: creating an
    existing table (unless `ifNotExists`, then nothing happens), a column
    without a string name or with a name the table already has, dropping a
    column, index, foreign key or table that is not there, an index name used
    twice, or any call on a missing table.
   */
  function Step(tables: Tables, op: Op): Option<Tables>
  {
    match op
    case CreateTable(name, columns, ifNotExists) =>
      if name in tables then (if ifNotExists then Some(tables) else None)
      else if !DistinctStringNames(columns) then None
      else Some(tables[name := Table(columns, 0, [], [])])
    case AddColumn(name, column) =>
      if name !in tables then None
      else
        var t := tables[name];
        if !ColumnName(column).Str? || ColumnName(column) in ColumnNames(t.columns) then None
        else Some(tables[name := t.(columns := t.columns + [column])])
    case DropColumn(name, columnName) =>
      if name !in tables || Str(columnName) !in ColumnNames(tables[name].columns) then None
      else Some(tables[name := tables[name].(columns := RemoveColumn(tables[name].columns, columnName))])
    case DropTable(name) =>
      if name !in tables then None else Some(tables - {name})
    case CreateIndex(name, index) =>
      if name !in tables || HasIndex(tables[name].indices, index.name) then None
      else Some(tables[name := tables[name].(indices := tables[name].indices + [index])])
    case DropIndex(name, indexName) =>
      if name !in tables || !HasIndex(tables[name].indices, indexName) then None
      else Some(tables[name := tables[name].(indices := RemoveIndex(tables[name].indices, indexName))])
    case CreateForeignKey(name, fk) =>
      if name !in tables then None
      else Some(tables[name := tables[name].(foreignKeys := tables[name].foreignKeys + [fk])])
    case DropForeignKey(name, fk) =>
      if name !in tables || fk !in tables[name].foreignKeys then None
      else Some(tables[name := tables[name].(foreignKeys := RemoveForeignKey(tables[name].foreignKeys, fk))])
    case InsertRow(name) =>
      if name !in tables then None
      else Some(tables[name := tables[name].(rowCount := tables[name].rowCount + 1)])
  }

  /** The store after a sequence of calls, and the call that threw, if any. */
  datatype Execution = Execution(tables: Tables, outcome: Outcome<Op>)

  function Run(tables: Tables, ops: seq<Op>): Execution
    decreases |ops|
  {
    if |ops| == 0 then Execution(tables, Pass)
    else
      match Step(tables, ops[0])
      case None => Execution(tables, Fail(ops[0]))
      case Some(next) => Run(next, ops[1..])
  }

  /** The table a call acts on. */
  function Target(op: Op): string
  {
    match op
    case CreateTable(t, _, _) => t
    case AddColumn(t, _) => t
    case DropColumn(t, _) => t
    case DropTable(t) => t
    case CreateIndex(t, _) => t
    case DropIndex(t, _) => t
    case CreateForeignKey(t, _) => t
    case DropForeignKey(t, _) => t
    case InsertRow(t) => t
  }

  /** Concatenating three call lists does not depend on the grouping. */
  lemma RegroupOps(a: seq<Op>, b: seq<Op>, c: seq<Op>)
    ensures a + b + c == a + (b + c)
  {
  }

  /** Every call of `ops` acts on the table `name`. */
  predicate AllOn(ops: seq<Op>, name: string)
  {
    forall i :: 0 <= i < |ops| ==> Target(ops[i]) == name
  }

  /** Joining two lists of calls on `name` gives a list of calls on `name`. */
  lemma AllOnAppend(a: seq<Op>, b: seq<Op>, name: string)
    requires AllOn(a, name) && AllOn(b, name)
    ensures AllOn(a + b, name)
  {
    forall i | 0 <= i < |a + b|
      ensures Target((a + b)[i]) == name
    {
      if i >= |a| {
        assert (a + b)[i] == b[i - |a|];
      }
    }
  }

  /** Every call of `ops` drops a foreign key of the table `name`. */
  predicate KeyDropsOn(ops: seq<Op>, name: string)
  {
    forall i :: 0 <= i < |ops| ==> ops[i].DropForeignKey? && ops[i].table == name
  }

  /** Joining two lists of foreign-key drops on `name` gives such a list. */
  lemma KeyDropsAppend(a: seq<Op>, b: seq<Op>, name: string)
    requires KeyDropsOn(a, name) && KeyDropsOn(b, name)
    ensures KeyDropsOn(a + b, name)
  {
    forall i | 0 <= i < |a + b|
      ensures (a + b)[i].DropForeignKey? && (a + b)[i].table == name
    {
      if i >= |a| {
        assert (a + b)[i] == b[i - |a|];
      }
    }
  }

  /** The drop issued for a found key, if any, is a foreign-key drop on `name`. */
  lemma DropFoundKeys(name: string, found: Option<TableForeignKey>)
    ensures KeyDropsOn(DropFound(name, found), name)
  {
  }

  /** Foreign-key drops on `name` are calls on `name`. */
  lemma KeyDropsAreOn(ops: seq<Op>, name: string)
    requires KeyDropsOn(ops, name)
    ensures AllOn(ops, name)
  {
    forall i | 0 <= i < |ops|
      ensures Target(ops[i]) == name
    {
      assert ops[i].DropForeignKey?;
    }
  }

  /** Calls on `name` followed by the index drops and the table drop all act on `name`. */
  lemma ThenIndicesAndTableOn(name: string, drops: seq<Op>, indexNames: seq<string>)
    requires AllOn(drops, name)
    ensures AllOn(drops + DropIndexOps(name, indexNames) + [DropTable(name)], name)
  {
    AllOnAppend(drops, DropIndexOps(name, indexNames), name);
    AllOnAppend(drops + DropIndexOps(name, indexNames), [DropTable(name)], name);
  }

  /** A call changes no table but its target. */
  lemma StepFrame(tables: Tables, op: Op, other: string)
    requires other != Target(op) && Step(tables, op).Some?
    ensures other in Step(tables, op).value <==> other in tables
    ensures other in tables ==> Step(tables, op).value[other] == tables[other]
  {
  }

  /** Calls on one table leave every other table as it was, whether or not one of them throws. */
  lemma {:induction false} RunFrame(tables: Tables, ops: seq<Op>, other: string)
    requires forall i :: 0 <= i < |ops| ==> Target(ops[i]) != other
    ensures other in Run(tables, ops).tables <==> other in tables
    ensures other in tables ==> Run(tables, ops).tables[other] == tables[other]
    decreases |ops|
  {
    if |ops| > 0 {
      var s := Step(tables, ops[0]);
      if s.Some? {
        StepFrame(tables, ops[0], other);
        RunFrame(s.value, ops[1..], other);
      }
    }
  }

  /** Running two lists one after the other is running their concatenation. */
  lemma {:induction false} RunAppend(tables: Tables, a: seq<Op>, b: seq<Op>)
    ensures Run(tables, a + b) ==
      (var first := Run(tables, a); if first.outcome.Fail? then first else Run(first.tables, b))
    decreases |a|
  {
    if |a| == 0 {
      assert a + b == b;
    } else {
      assert (a + b)[0] == a[0];
      assert (a + b)[1..] == a[1..] + b;
      var s := Step(tables, a[0]);
      if s.Some? {
        RunAppend(s.value, a[1..], b);
      }
    }
  }

  /** A single call run on its own: its step, or its throw with nothing changed. */
  lemma RunOne(tables: Tables, op: Op)
    ensures Run(tables, [op]) ==
      (if Step(tables, op).Some? then Execution(Step(tables, op).value, Pass) else Execution(tables, Fail(op)))
  {
    assert [op][1..] == [];
  }

  /** A run that completes and ends by dropping a table leaves that table absent. */
  lemma RunEndsWithDrop(tables: Tables, ops: seq<Op>, name: string)
    requires |ops| > 0 && ops[|ops| - 1] == DropTable(name)
    requires Run(tables, ops).outcome.Pass?
    ensures name !in Run(tables, ops).tables
  {
    var front := ops[..|ops| - 1];
    assert ops == front + [DropTable(name)];
    RunAppend(tables, front, [DropTable(name)]);
  }

  /** `foreignKeys.find(p)`: the first foreign key satisfying `p`. */
  function FindForeignKey(fks: seq<TableForeignKey>, p: TableForeignKey -> bool): (r: Option<TableForeignKey>)
    ensures r.Some? ==> r.value in fks && p(r.value)
    ensures r.None? <==> forall fk :: fk in fks ==> !p(fk)
    ensures r.Some? ==> exists i :: 0 <= i < |fks| && fks[i] == r.value && forall j :: 0 <= j < i ==> !p(fks[j])
  {
    if |fks| == 0 then None
    else if p(fks[0]) then Some(fks[0])
    else
      var r := FindForeignKey(fks[1..], p);
      assert r.Some? ==> exists i :: 0 <= i < |fks| && fks[i] == r.value && forall j :: 0 <= j < i ==> !p(fks[j]) by {
        if r.Some? {
          var i :| 0 <= i < |fks[1..]| && fks[1..][i] == r.value && forall j :: 0 <= j < i ==> !p(fks[1..][j]);
          assert fks[i + 1] == r.value;
          assert forall j :: 0 <= j < i + 1 ==> !p(fks[j]) by {
            forall j | 0 <= j < i + 1
              ensures !p(fks[j])
            {
              if j > 0 {
                assert fks[j] == fks[1..][j - 1];
              }
            }
          }
        }
      }
      r
  }

  /** `find` returns the first foreign key satisfying `p`. */
  lemma {:induction false} FindFirstMatch(fks: seq<TableForeignKey>, p: TableForeignKey -> bool, i: nat)
    requires i < |fks| && p(fks[i])
    requires forall j :: 0 <= j < i ==> !p(fks[j])
    ensures FindForeignKey(fks, p) == Some(fks[i])
    decreases i
  {
    if i > 0 {
      assert !p(fks[0]);
      assert forall j :: 0 <= j < i - 1 ==> fks[1..][j] == fks[j + 1];
      FindFirstMatch(fks[1..], p, i - 1);
    }
  }

  /** The drop of a foreign key `find` returned, if it returned one. */
  function DropFound(name: string, found: Option<TableForeignKey>): seq<Op>
  {
    if found.Some? then [DropForeignKey(name, found.value)] else []
  }

  function CreateIndexOps(name: string, indices: seq<TableIndex>): (ops: seq<Op>)
    ensures |ops| == |indices|
    ensures forall i :: 0 <= i < |indices| ==> ops[i] == CreateIndex(name, indices[i])
  {
    seq(|indices|, i requires 0 <= i < |indices| => CreateIndex(name, indices[i]))
  }

  function CreateForeignKeyOps(name: string, fks: seq<TableForeignKey>): (ops: seq<Op>)
    ensures |ops| == |fks|
    ensures forall i :: 0 <= i < |fks| ==> ops[i] == CreateForeignKey(name, fks[i])
  {
    seq(|fks|, i requires 0 <= i < |fks| => CreateForeignKey(name, fks[i]))
  }

  function DropIndexOps(name: string, indexNames: seq<string>): (ops: seq<Op>)
    ensures |ops| == |indexNames|
    ensures forall i :: 0 <= i < |indexNames| ==> ops[i] == DropIndex(name, indexNames[i])
  {
    seq(|indexNames|, i requires 0 <= i < |indexNames| => DropIndex(name, indexNames[i]))
  }

  /** Creating indices with fresh, pairwise different names appends them. */
  lemma {:induction false} RunCreateIndices(tables: Tables, name: string, indices: seq<TableIndex>)
    requires name in tables
    requires forall i :: 0 <= i < |indices| ==> !HasIndex(tables[name].indices, indices[i].name)
    requires forall i, j :: 0 <= i < j < |indices| ==> indices[i].name != indices[j].name
    ensures Run(tables, CreateIndexOps(name, indices)) ==
      Execution(tables[name := tables[name].(indices := tables[name].indices + indices)], Pass)
    decreases |indices|
  {
    var t := tables[name];
    if |indices| == 0 {
      assert t.indices + indices == t.indices;
      assert tables[name := t] == tables;
    } else {
      var ix := indices[0];
      var rest := indices[1..];
      var ops := CreateIndexOps(name, indices);
      assert ops[1..] == CreateIndexOps(name, rest);
      var next := tables[name := t.(indices := t.indices + [ix])];
      assert Step(tables, ops[0]) == Some(next);
      forall i | 0 <= i < |rest|
        ensures !HasIndex(next[name].indices, rest[i].name)
      {
        assert rest[i] == indices[i + 1];
      }
      forall i, j | 0 <= i < j < |rest|
        ensures rest[i].name != rest[j].name
      {
        assert rest[i] == indices[i + 1] && rest[j] == indices[j + 1];
      }
      RunCreateIndices(next, name, rest);
      assert (t.indices + [ix]) + rest == t.indices + indices;
    }
  }

  /** Creating foreign keys always succeeds on an existing table and appends them. */
  lemma {:induction false} RunCreateForeignKeys(tables: Tables, name: string, fks: seq<TableForeignKey>)
    requires name in tables
    ensures Run(tables, CreateForeignKeyOps(name, fks)) ==
      Execution(tables[name := tables[name].(foreignKeys := tables[name].foreignKeys + fks)], Pass)
    decreases |fks|
  {
    var t := tables[name];
    if |fks| == 0 {
      assert t.foreignKeys + fks == t.foreignKeys;
      assert tables[name := t] == tables;
    } else {
      var ops := CreateForeignKeyOps(name, fks);
      assert ops[1..] == CreateForeignKeyOps(name, fks[1..]);
      var next := tables[name := t.(foreignKeys := t.foreignKeys + [fks[0]])];
      assert Step(tables, ops[0]) == Some(next);
      RunCreateForeignKeys(next, name, fks[1..]);
      assert (t.foreignKeys + [fks[0]]) + fks[1..] == t.foreignKeys + fks;
    }
  }

  /** Dropping indices the table has, under pairwise different names, succeeds and keeps the table. */
  lemma {:induction false} RunDropIndices(tables: Tables, name: string, indexNames: seq<string>)
    requires name in tables
    requires forall i :: 0 <= i < |indexNames| ==> HasIndex(tables[name].indices, indexNames[i])
    requires forall i, j :: 0 <= i < j < |indexNames| ==> indexNames[i] != indexNames[j]
    ensures Run(tables, DropIndexOps(name, indexNames)).outcome.Pass?
    ensures name in Run(tables, DropIndexOps(name, indexNames)).tables
    ensures forall n :: !HasIndex(tables[name].indices, n) ==>
      !HasIndex(Run(tables, DropIndexOps(name, indexNames)).tables[name].indices, n)
    decreases |indexNames|
  {
    if |indexNames| > 0 {
      var t := tables[name];
      var n := indexNames[0];
      var rest := indexNames[1..];
      var ops := DropIndexOps(name, indexNames);
      assert ops[1..] == DropIndexOps(name, rest);
      var remaining := RemoveIndex(t.indices, n);
      var next := tables[name := t.(indices := remaining)];
      assert Step(tables, ops[0]) == Some(next);
      forall i | 0 <= i < |rest|
        ensures HasIndex(remaining, rest[i])
      {
        assert rest[i] == indexNames[i + 1];
        var k :| 0 <= k < |t.indices| && t.indices[k].name == rest[i];
        assert t.indices[k] in remaining;
      }
      forall i, j | 0 <= i < j < |rest|
        ensures rest[i] != rest[j]
      {
        assert rest[i] == indexNames[i + 1] && rest[j] == indexNames[j + 1];
      }
      RunDropIndices(next, name, rest);
    }
  }

  function DropForeignKeyOps(name: string, fks: seq<TableForeignKey>): (ops: seq<Op>)
    ensures |ops| == |fks|
    ensures forall i :: 0 <= i < |fks| ==> ops[i] == DropForeignKey(name, fks[i])
  {
    seq(|fks|, i requires 0 <= i < |fks| => DropForeignKey(name, fks[i]))
  }

  /** Dropping pairwise different foreign keys the table has succeeds and keeps the table. */
  lemma {:induction false} RunDropForeignKeys(tables: Tables, name: string, fks: seq<TableForeignKey>)
    requires name in tables
    requires forall i :: 0 <= i < |fks| ==> fks[i] in tables[name].foreignKeys
    requires forall i, j :: 0 <= i < j < |fks| ==> fks[i] != fks[j]
    ensures Run(tables, DropForeignKeyOps(name, fks)).outcome.Pass?
    ensures name in Run(tables, DropForeignKeyOps(name, fks)).tables
    decreases |fks|
  {
    if |fks| > 0 {
      var t := tables[name];
      var rest := fks[1..];
      var ops := DropForeignKeyOps(name, fks);
      assert ops[1..] == DropForeignKeyOps(name, rest);
      var remaining := RemoveForeignKey(t.foreignKeys, fks[0]);
      var next := tables[name := t.(foreignKeys := remaining)];
      assert Step(tables, ops[0]) == Some(next);
      forall i | 0 <= i < |rest|
        ensures rest[i] in remaining
      {
        assert rest[i] == fks[i + 1];
      }
      forall i, j | 0 <= i < j < |rest|
        ensures rest[i] != rest[j]
      {
        assert rest[i] == fks[i + 1] && rest[j] == fks[j + 1];
      }
      RunDropForeignKeys(next, name, rest);
    }
  }

  /** A completed run whose calls all act on one table and end by dropping it removes that table and nothing else. */
  lemma RunDropsOnlyTarget(tables: Tables, ops: seq<Op>, name: string)
    requires forall i :: 0 <= i < |ops| ==> Target(ops[i]) == name
    requires |ops| > 0 && ops[|ops| - 1] == DropTable(name)
    requires Run(tables, ops).outcome.Pass?
    ensures Run(tables, ops).tables == tables - {name}
  {
    var after := Run(tables, ops).tables;
    RunEndsWithDrop(tables, ops, name);
    forall k | k != name
      ensures k in after <==> k in tables
      ensures k in tables ==> after[k] == tables[k]
    {
      RunFrame(tables, ops, k);
    }
  }

  /** Calls that only touch foreign keys leave a table's indices as they were. */
  lemma {:induction false} RunKeepsIndices(tables: Tables, ops: seq<Op>, name: string)
    requires name in tables
    requires forall i :: 0 <= i < |ops| ==> ops[i].DropForeignKey? || ops[i].CreateForeignKey?
    ensures name in Run(tables, ops).tables
    ensures Run(tables, ops).tables[name].indices == tables[name].indices
    decreases |ops|
  {
    if |ops| > 0 {
      var s := Step(tables, ops[0]);
      if s.Some? {
        RunKeepsIndices(s.value, ops[1..], name);
      }
    }
  }

  /** The calls that create a table and then its indices and foreign keys. */
  function CreateWithOps(name: string, columns: seq<ColumnOptions>, indices: seq<TableIndex>, fks: seq<TableForeignKey>): seq<Op>
  {
    [CreateTable(name, columns, true)] + CreateIndexOps(name, indices) + CreateForeignKeyOps(name, fks)
  }

  /** The calls that drop foreign keys, then indices, then the table. */
  function TeardownOps(name: string, fks: seq<TableForeignKey>, indexNames: seq<string>): seq<Op>
  {
    DropForeignKeyOps(name, fks) + DropIndexOps(name, indexNames) + [DropTable(name)]
  }

  /** Creating a new table and then its indices leaves it with those indices and no foreign keys. */
  lemma CreateThenIndices(tables: Tables, name: string, columns: seq<ColumnOptions>, indices: seq<TableIndex>)
    requires name !in tables && DistinctStringNames(columns)
    requires forall i, j :: 0 <= i < j < |indices| ==> indices[i].name != indices[j].name
    ensures Run(tables, [CreateTable(name, columns, true)] + CreateIndexOps(name, indices)) ==
      Execution(tables[name := Table(columns, 0, indices, [])], Pass)
  {
    var create := [CreateTable(name, columns, true)];
    var t0 := tables[name := Table(columns, 0, [], [])];
    RunOne(tables, create[0]);
    RunCreateIndices(t0, name, indices);
    RunAppend(tables, create, CreateIndexOps(name, indices));
    assert [] + indices == indices;
    assert t0[name].(indices := t0[name].indices + indices) == Table(columns, 0, indices, []);
    ReplaceTwice(tables, name, Table(columns, 0, [], []), Table(columns, 0, indices, []));
  }

  /** On a database without the table, creating it with its indices and foreign keys makes exactly that table. */
  lemma RunCreateWith(tables: Tables, name: string, columns: seq<ColumnOptions>, indices: seq<TableIndex>, fks: seq<TableForeignKey>)
    requires name !in tables && DistinctStringNames(columns)
    requires forall i, j :: 0 <= i < j < |indices| ==> indices[i].name != indices[j].name
    ensures Run(tables, CreateWithOps(name, columns, indices, fks)) ==
      Execution(tables[name := Table(columns, 0, indices, fks)], Pass)
  {
    var front := [CreateTable(name, columns, true)] + CreateIndexOps(name, indices);
    CreateThenIndices(tables, name, columns, indices);
    var t1 := tables[name := Table(columns, 0, indices, [])];
    RunCreateForeignKeys(t1, name, fks);
    RunAppend(tables, front, CreateForeignKeyOps(name, fks));
    assert [] + fks == fks;
  }

  /** Dropping indices the table has and then the table itself goes through. */
  lemma IndicesThenTable(tables: Tables, name: string, indexNames: seq<string>)
    requires name in tables
    requires forall i :: 0 <= i < |indexNames| ==> HasIndex(tables[name].indices, indexNames[i])
    requires forall i, j :: 0 <= i < j < |indexNames| ==> indexNames[i] != indexNames[j]
    ensures Run(tables, DropIndexOps(name, indexNames) + [DropTable(name)]).outcome.Pass?
  {
    RunDropIndices(tables, name, indexNames);
    var after := Run(tables, DropIndexOps(name, indexNames)).tables;
    RunOne(after, DropTable(name));
    RunAppend(tables, DropIndexOps(name, indexNames), [DropTable(name)]);
  }

  /** Dropping foreign keys and indices the table has, then the table, goes through. */
  lemma TeardownPasses(tables: Tables, name: string, fks: seq<TableForeignKey>, indexNames: seq<string>)
    requires name in tables
    requires forall i :: 0 <= i < |fks| ==> fks[i] in tables[name].foreignKeys
    requires forall i, j :: 0 <= i < j < |fks| ==> fks[i] != fks[j]
    requires forall i :: 0 <= i < |indexNames| ==> HasIndex(tables[name].indices, indexNames[i])
    requires forall i, j :: 0 <= i < j < |indexNames| ==> indexNames[i] != indexNames[j]
    ensures Run(tables, TeardownOps(name, fks, indexNames)).outcome.Pass?
  {
    var fkOps := DropForeignKeyOps(name, fks);
    var rest := DropIndexOps(name, indexNames) + [DropTable(name)];
    assert TeardownOps(name, fks, indexNames) == fkOps + rest;
    RunDropForeignKeys(tables, name, fks);
    RunKeepsIndices(tables, fkOps, name);
    IndicesThenTable(Run(tables, fkOps).tables, name, indexNames);
    RunAppend(tables, fkOps, rest);
  }

  /** Dropping foreign keys and indices the table has, then the table, removes it and nothing else. */
  lemma RunTeardown(tables: Tables, name: string, fks: seq<TableForeignKey>, indexNames: seq<string>)
    requires name in tables
    requires forall i :: 0 <= i < |fks| ==> fks[i] in tables[name].foreignKeys
    requires forall i, j :: 0 <= i < j < |fks| ==> fks[i] != fks[j]
    requires forall i :: 0 <= i < |indexNames| ==> HasIndex(tables[name].indices, indexNames[i])
    requires forall i, j :: 0 <= i < j < |indexNames| ==> indexNames[i] != indexNames[j]
    ensures Run(tables, TeardownOps(name, fks, indexNames)) == Execution(tables - {name}, Pass)
  {
    TeardownPasses(tables, name, fks, indexNames);
    var ops := TeardownOps(name, fks, indexNames);
    forall i | 0 <= i < |ops|
      ensures Target(ops[i]) == name
    {
      if i >= |fks| + |indexNames| {
        assert ops[i] == DropTable(name);
      } else if i >= |fks| {
        assert ops[i] == DropIndexOps(name, indexNames)[i - |fks|];
      }
    }
    RunDropsOnlyTarget(tables, ops, name);
  }

  /** Removing a table forgets what it last held; removing an absent one changes nothing. */
  lemma RemoveUpdated(tables: Tables, name: string, t: Table)
    ensures tables[name := t] - {name} == tables - {name}
    ensures name !in tables ==> tables - {name} == tables
  {
  }

  /** The store under the migrations, as the `queryRunner` they are handed. */
  class QueryRunner {
    var tables: Tables

    constructor (initial: Tables)
      ensures tables == initial
    {
      tables := initial;
    }

    /** `queryRunner.getTable(name)` */
    function GetTable(name: string): Option<Table>
      reads this
    {
      TableIn(tables, name)
    }

    /** Issues one call; `ok` is false when the driver threw, and then nothing changed. */
    method Execute(op: Op) returns (ok: bool)
      modifies this
      ensures ok == Step(old(tables), op).Some?
      ensures tables == if ok then Step(old(tables), op).value else old(tables)
    {
      var next := Step(tables, op);
      ok := next.Some?;
      if ok {
        tables := next.value;
      }
    }

    /** Awaits the calls one after another; the first that throws ends the sequence. */
    method RunAll(ops: seq<Op>) returns (outcome: Outcome<Op>)
      modifies this
      ensures Execution(tables, outcome) == Run(old(tables), ops)
    {
      var i := 0;
      while i < |ops|
        invariant 0 <= i <= |ops|
        invariant Run(old(tables), ops) == Run(tables, ops[i..])
      {
        var ok := Execute(ops[i]);
        if !ok {
          return Fail(ops[i]);
        }
        assert ops[i..][1..] == ops[i + 1..];
        i := i + 1;
      }
      outcome := Pass;
    }
  }
}
