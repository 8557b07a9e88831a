/**
  The migration that adapts the host application's `users` table to the chat
  schema: it builds the required column list from the host's field mapping,
  then creates the table or adds the missing columns behind the approval
  prompt and the populated-table safety check; its reversal drops the mapped
  columns and, when only the core columns were listed, the table.
 */
module UserMigration {
  import opened Wrappers
  import opened JsValue
  import opened Schema
  import JsString
  import ConfigServer
  import DataSource

  const Users: string := "users"

  /** `Object.keys(defaultMapping)`: the abstract fields in declaration order. */
  const MappedFields: seq<string> := ["full_name", "avatar", "bio"]

  /** The names `down` removes. */
  const ColumnsToRemove: seq<string> := ["full_name", "avatar", "bio"]

  /** The names `down` counts as core. */
  const CoreColumns: seq<string> := ["id", "created_at", "updated_at"]

  datatype MigrationError =
    | InvalidMappingJson         // USER_CONFIG is set but JSON.parse throws
    | MappingTypeError           // a property read through `undefined`/`null` while logging the mapping
    | CreateDeclined             // the operator did not approve creating `users`
    | AddColumnsDeclined         // the operator did not approve adding the missing columns
    | UnsafeColumn(name: Value)  // a column without default or nullable flag for a populated table
    | DriverError(op: Op)        // a query-runner call threw

  // ----- building the column list -------------------------------------------

  /**
    `customMapping` after reading `process.env.USER_CONFIG`: the parsed value
    when the variable is non-empty (`parse` stands for `JSON.parse`, `None` for
    a throw), else `undefined`.
   */
  function CustomMapping(env: Option<string>, parse: string -> Option<Value>): Result<Value, MigrationError>
  {
    if env.Some? && env.value != "" then
      match parse(env.value)
      case None => Err(InvalidMappingJson)
      case Some(v) => Ok(v)
    else Ok(Undefined)
  }

  /** `customMapping.User.field_mapping.full_name` throws: one of the three objects it goes through is nullish. */
  predicate DebugReadThrows(custom: Value)
  {
    IsNullish(custom) || IsNullish(Get(custom, "User")) || IsNullish(Get(Get(custom, "User"), "field_mapping"))
  }

  /** `customMapping?.User?.field_mapping` */
  function HostFieldMapping(custom: Value): Value
  {
    Get(Get(custom, "User"), "field_mapping")
  }

  /** `mergedMapping[key] = customMapping && customMapping[key] ? customMapping[key] : defaultMapping[key]` */
  function MergedEntry(fieldMapping: Value, key: string): Value
  {
    if Truthy(fieldMapping) && Truthy(Get(fieldMapping, key)) then Get(fieldMapping, key)
    else Get(ConfigServer.DefaultFieldMapping(), key)
  }

  /** `{ ...column, type: "text" }` */
  function MappedColumn(entry: Value): ColumnOptions
  {
    Spread(entry)["type" := Str("text")]
  }

  function IdColumn(): ColumnOptions
  {
    Named("id", map["type" := Str("integer"), "isPrimary" := Bool(true),
        "isGenerated" := Bool(true), "generationStrategy" := Str("increment")])
  }

  function TimestampColumn(name: string): ColumnOptions
  {
    Named(name, map["type" := Str("timestamp"), "default" := Str("CURRENT_TIMESTAMP")])
  }

  /** The system columns pushed after the mapped ones. */
  function SystemColumns(): seq<ColumnOptions>
  {
    [IdColumn(), TimestampColumn("created_at"), TimestampColumn("updated_at")]
  }

  /** The column list for a host field mapping: the three merged entries, then the system columns. */
  function ColumnsFor(fieldMapping: Value): seq<ColumnOptions>
  {
    [MappedColumn(MergedEntry(fieldMapping, MappedFields[0])),
     MappedColumn(MergedEntry(fieldMapping, MappedFields[1])),
     MappedColumn(MergedEntry(fieldMapping, MappedFields[2]))] + SystemColumns()
  }

  /**
    What `buildUserTableColumns` returns as written, or the error it throws:
    the debug read of `customMapping.User.field_mapping.full_name` throws
    whenever no mapping with a `User.field_mapping` was supplied.
   */
  function BuiltColumns(env: Option<string>, parse: string -> Option<Value>): Result<seq<ColumnOptions>, MigrationError>
  {
    match CustomMapping(env, parse)
    case Err(e) => Err(e)
    case Ok(custom) =>
      if DebugReadThrows(custom) then Err(MappingTypeError) else Ok(ColumnsFor(HostFieldMapping(custom)))
  }

  /**
    What `buildUserTableColumns` evidently means to return: the same list, with
    the defaults standing in for a missing mapping instead of a throw.
   */
  function IntendedBuiltColumns(env: Option<string>, parse: string -> Option<Value>): Result<seq<ColumnOptions>, MigrationError>
  {
    match CustomMapping(env, parse)
    case Err(e) => Err(e)
    case Ok(custom) => Ok(ColumnsFor(HostFieldMapping(custom)))
  }

  /**
    The column builder with its merging loop, as written: the debug read of
    `customMapping.User.field_mapping.full_name` comes before the guarded merge.
   */
  method BuildUserTableColumns(env: Option<string>, parse: string -> Option<Value>)
    returns (r: Result<seq<ColumnOptions>, MigrationError>)
    ensures r == BuiltColumns(env, parse)
  {
    var defaultMapping := ConfigServer.DefaultFieldMapping();
    var custom := Undefined;
    if env.Some? && env.value != "" {
      var parsed := parse(env.value);
      if parsed.None? {
        return Err(InvalidMappingJson);
      }
      custom := parsed.value;
    }
    if DebugReadThrows(custom) {
      return Err(MappingTypeError);
    }
    var fieldMapping := HostFieldMapping(custom);
    var merged: seq<Value> := [];
    for i := 0 to |MappedFields|
      invariant |merged| == i
      invariant forall j :: 0 <= j < i ==> merged[j] == MergedEntry(fieldMapping, MappedFields[j])
    {
      var key := MappedFields[i];
      var entry := if Truthy(fieldMapping) && Truthy(Get(fieldMapping, key)) then Get(fieldMapping, key)
                   else Get(defaultMapping, key);
      merged := merged + [entry];
    }
    var columns := [MappedColumn(merged[0]), MappedColumn(merged[1]), MappedColumn(merged[2])];
    columns := columns + SystemColumns();
    return Ok(columns);
  }

  // ----- planning `up` --------------------------------------------------------

  /** `columnNames.filter(column => !existingColumnNames.includes(column))` */
  function MissingNames(names: seq<Value>, existing: seq<Value>): seq<Value>
  {
    if |names| == 0 then []
    else (if Includes(existing, names[0]) then [] else [names[0]]) + MissingNames(names[1..], existing)
  }

  /** `columns.filter(col => missingColumnNames.includes(col.name))` */
  function ColumnsToAdd(columns: seq<ColumnOptions>, missing: seq<Value>): seq<ColumnOptions>
  {
    if |columns| == 0 then []
    else (if Includes(missing, ColumnName(columns[0])) then [columns[0]] else []) + ColumnsToAdd(columns[1..], missing)
  }

  /** Reference definition: the columns whose name the table does not list, in their order. */
  function ColumnsAbsentFrom(columns: seq<ColumnOptions>, existing: seq<Value>): (r: seq<ColumnOptions>)
    ensures forall c :: c in r <==> c in columns && !Includes(existing, ColumnName(c))
    ensures |r| <= |columns|
  {
    if |columns| == 0 then []
    else (if Includes(existing, ColumnName(columns[0])) then [] else [columns[0]]) + ColumnsAbsentFrom(columns[1..], existing)
  }

  /** `column.default === undefined && column.isNullable !== true` */
  predicate Unsafe(c: ColumnOptions)
  {
    Lookup(c, "default") == Undefined && Lookup(c, "isNullable") != Bool(true)
  }

  /** The column the check loop throws on: the first unsafe one. */
  function FirstUnsafe(columns: seq<ColumnOptions>): (r: Option<ColumnOptions>)
    ensures r.Some? ==> r.value in columns && Unsafe(r.value)
    ensures r.None? <==> forall c :: c in columns ==> !Unsafe(c)
  {
    if |columns| == 0 then None
    else if Unsafe(columns[0]) then Some(columns[0])
    else FirstUnsafe(columns[1..])
  }

  function AddColumnOps(columns: seq<ColumnOptions>): (ops: seq<Op>)
    ensures |ops| == |columns|
    ensures forall i :: 0 <= i < |columns| ==> ops[i] == AddColumn(Users, columns[i])
  {
    seq(|columns|, i requires 0 <= i < |columns| => AddColumn(Users, columns[i]))
  }

  /**
    The calls `up` issues, or the error it throws before issuing any: the
    builder's error; for an absent table the creation, if approved; for an
    existing one the additions of the missing columns, if approved when any are
    missing and if none lacks both default and nullable flag on a populated table.
   */
  function UpPlan(built: Result<seq<ColumnOptions>, MigrationError>, users: Option<Table>, answer: string)
    : Result<seq<Op>, MigrationError>
  {
    match built
    case Err(e) => Err(e)
    case Ok(columns) =>
      match users
      case None =>
        if DataSource.PromptAccepts(answer) then Ok([CreateTable(Users, columns, true)]) else Err(CreateDeclined)
      case Some(t) =>
        var missing := MissingNames(ColumnNames(columns), ColumnNames(t.columns));
        if |missing| > 0 && !DataSource.PromptAccepts(answer) then Err(AddColumnsDeclined)
        else
          var toAdd := ColumnsToAdd(columns, missing);
          if t.rowCount > 0 && FirstUnsafe(toAdd).Some? then Err(UnsafeColumn(ColumnName(FirstUnsafe(toAdd).value)))
          else Ok(AddColumnOps(toAdd))
  }

  datatype MigrationRun = MigrationRun(tables: Tables, outcome: Outcome<MigrationError>)

  /** A plan carried out: nothing happens on an error decided before the first call. */
  function Migrate(tables: Tables, plan: Result<seq<Op>, MigrationError>): MigrationRun
  {
    match plan
    case Err(e) => MigrationRun(tables, Fail(e))
    case Ok(ops) =>
      var e := Run(tables, ops);
      MigrationRun(e.tables, if e.outcome.Fail? then Fail(DriverError(e.outcome.error)) else Pass)
  }

  /** `UserMigration1680300000005.up`; `answer` is what the operator types at the prompt. */
  method Up(db: QueryRunner, env: Option<string>, parse: string -> Option<Value>, answer: string)
    returns (r: Outcome<MigrationError>)
    modifies db
    ensures MigrationRun(db.tables, r) == Migrate(old(db.tables), UpPlan(BuiltColumns(env, parse), old(db.GetTable(Users)), answer))
  {
    var built := BuildUserTableColumns(env, parse);
    var table := db.GetTable(Users);
    ghost var before := db.tables;
    ghost var plan := UpPlan(built, table, answer);
    if built.Err? {
      assert plan == Err(built.error);
      return Fail(built.error);
    }
    var columns := built.value;
    if table.None? {
      if !DataSource.PromptAccepts(answer) {
        assert plan == Err(CreateDeclined);
        return Fail(CreateDeclined);
      }
      var create := CreateTable(Users, columns, true);
      assert plan == Ok([create]);
      RunOne(before, create);
      var ok := db.Execute(create);
      if !ok {
        return Fail(DriverError(create));
      }
      return Pass;
    }
    var t := table.value;
    var missing := MissingNames(ColumnNames(columns), ColumnNames(t.columns));
    if |missing| > 0 {
      if !DataSource.PromptAccepts(answer) {
        assert plan == Err(AddColumnsDeclined);
        return Fail(AddColumnsDeclined);
      }
    }
    var toAdd := ColumnsToAdd(columns, missing);
    if t.rowCount > 0 {
      var bad := FindUnsafe(toAdd);
      if bad.Some? {
        assert plan == Err(UnsafeColumn(ColumnName(bad.value)));
        return Fail(UnsafeColumn(ColumnName(bad.value)));
      }
    }
    assert plan == Ok(AddColumnOps(toAdd));
    var outcome := AddColumns(db, toAdd);
    if outcome.Fail? {
      return Fail(DriverError(outcome.error));
    }
    return Pass;
  }

  /** The check loop of `up`: the first column lacking both a default and the nullable flag. */
  method FindUnsafe(columns: seq<ColumnOptions>) returns (bad: Option<ColumnOptions>)
    ensures bad == FirstUnsafe(columns)
  {
    for i := 0 to |columns|
      invariant forall j :: 0 <= j < i ==> !Unsafe(columns[j])
    {
      if Unsafe(columns[i]) {
        FirstUnsafeAt(columns, i);
        return Some(columns[i]);
      }
    }
    FirstUnsafeNone(columns);
    return None;
  }

  /** The add loop of `up`: one `addColumn("users", …)` per column, stopping at the first throw. */
  method AddColumns(db: QueryRunner, columns: seq<ColumnOptions>) returns (r: Outcome<Op>)
    modifies db
    ensures Execution(db.tables, r) == Run(old(db.tables), AddColumnOps(columns))
  {
    ghost var ops := AddColumnOps(columns);
    for i := 0 to |columns|
      invariant Run(old(db.tables), ops) == Run(db.tables, ops[i..])
    {
      var ok := db.Execute(AddColumn(Users, columns[i]));
      if !ok {
        return Fail(AddColumn(Users, columns[i]));
      }
      assert ops[i..][1..] == ops[i + 1..];
    }
    return Pass;
  }

  /** The first unsafe column is found at the first position holding one. */
  lemma {:induction false} FirstUnsafeAt(columns: seq<ColumnOptions>, i: nat)
    requires i < |columns| && Unsafe(columns[i])
    requires forall j :: 0 <= j < i ==> !Unsafe(columns[j])
    ensures FirstUnsafe(columns) == Some(columns[i])
  {
    if i > 0 {
      FirstUnsafeAt(columns[1..], i - 1);
    }
  }

  /** Without an unsafe column nothing is reported. */
  lemma FirstUnsafeNone(columns: seq<ColumnOptions>)
    requires forall j :: 0 <= j < |columns| ==> !Unsafe(columns[j])
    ensures FirstUnsafe(columns) == None
  {
  }

  // ----- planning `down` ------------------------------------------------------

  /** The drops of the loop over `columnsToRemove`, each issued when the fetched table lists the name. */
  function DropOps(names: seq<Value>, fields: seq<string>): seq<Op>
  {
    if |fields| == 0 then []
    else (if Includes(names, Str(fields[0])) then [DropColumn(Users, fields[0])] else []) + DropOps(names, fields[1..])
  }

  /** `remainingColumnNames.length === coreColumns.length && coreColumns.every(name => remainingColumnNames.includes(name))` */
  predicate OnlyCoreRemain(names: seq<Value>)
  {
    |names| == |CoreColumns| && forall c :: c in CoreColumns ==> Includes(names, Str(c))
  }

  /** The calls `down` issues, all decided on the column list fetched before the first drop. */
  function DownOps(users: Option<Table>): seq<Op>
  {
    match users
    case None => []
    case Some(t) =>
      var names := ColumnNames(t.columns);
      DropOps(names, ColumnsToRemove) + (if OnlyCoreRemain(names) then [DropTable(Users)] else [])
  }

  /** `UserMigration1680300000005.down` */
  method Down(db: QueryRunner) returns (r: Outcome<Op>)
    modifies db
    ensures Execution(db.tables, r) == Run(old(db.tables), DownOps(old(db.GetTable(Users))))
  {
    var table := db.GetTable(Users);
    if table.None? {
      return Pass;
    }
    var names := ColumnNames(table.value.columns);
    ghost var tail := if OnlyCoreRemain(names) then [DropTable(Users)] else [];
    for i := 0 to |ColumnsToRemove|
      invariant Run(old(db.tables), DownOps(table)) == Run(db.tables, DropOps(names, ColumnsToRemove[i..]) + tail)
    {
      var colName := ColumnsToRemove[i];
      assert ColumnsToRemove[i..][1..] == ColumnsToRemove[i + 1..];
      var rest := DropOps(names, ColumnsToRemove[i + 1..]);
      if Includes(names, Str(colName)) {
        assert DropOps(names, ColumnsToRemove[i..]) + tail == [DropColumn(Users, colName)] + (rest + tail);
        var ok := db.Execute(DropColumn(Users, colName));
        if !ok {
          return Fail(DropColumn(Users, colName));
        }
        assert ([DropColumn(Users, colName)] + (rest + tail))[1..] == rest + tail;
      } else {
        assert DropOps(names, ColumnsToRemove[i..]) + tail == rest + tail;
      }
    }
    assert ColumnsToRemove[|ColumnsToRemove|..] == [];
    var remainingColumnNames := names;
    if OnlyCoreRemain(remainingColumnNames) {
      var ok := db.Execute(DropTable(Users));
      if !ok {
        return Fail(DropTable(Users));
      }
    }
    return Pass;
  }

  // ----- the column list ----------------------------------------------------

  /**
    Without `USER_CONFIG` the list as written cannot be built: the debug read
    goes through `undefined`, and so does any mapping lacking `User.field_mapping`.
   */
  lemma NoMappingThrows(env: Option<string>, parse: string -> Option<Value>)
    requires env.None? || env == Some("") || (parse(env.value).Some? && DebugReadThrows(parse(env.value).value))
    ensures BuiltColumns(env, parse) == Err(MappingTypeError)
  {
  }

  /** The list as written and as intended differ only where the debug read throws. */
  lemma AsWrittenDiffersOnlyByDebugRead(env: Option<string>, parse: string -> Option<Value>)
    ensures BuiltColumns(env, parse) != IntendedBuiltColumns(env, parse) <==>
      BuiltColumns(env, parse) == Err(MappingTypeError)
    ensures BuiltColumns(env, parse).Ok? ==> BuiltColumns(env, parse) == IntendedBuiltColumns(env, parse)
  {
  }

  function FullNameDefaultColumn(): ColumnOptions
  {
    Named("full_name", map["default" := Str("'User'"), "type" := Str("text")])
  }

  function AvatarDefaultColumn(): ColumnOptions
  {
    Named("avatar", map["default" := Str("'https://example.com/default-avatar.png'"), "type" := Str("text")])
  }

  function BioDefaultColumn(): ColumnOptions
  {
    Named("bio", map["isNullable" := Bool(true), "type" := Str("text")])
  }

  /** The list the default mapping gives. */
  function DefaultColumnList(): seq<ColumnOptions>
  {
    [FullNameDefaultColumn(), AvatarDefaultColumn(), BioDefaultColumn()] + SystemColumns()
  }

  /** The list built from the default mapping, column by column. */
  lemma DefaultColumnsAre()
    ensures ColumnsFor(Undefined) == DefaultColumnList()
  {
    var d := ConfigServer.DefaultFieldMapping();
    assert MergedEntry(Undefined, "full_name") == d.props["full_name"];
    assert MappedColumn(d.props["full_name"]) == FullNameDefaultColumn();
    assert MergedEntry(Undefined, "avatar") == d.props["avatar"];
    assert MappedColumn(d.props["avatar"]) == AvatarDefaultColumn();
    assert MergedEntry(Undefined, "bio") == d.props["bio"];
    assert MappedColumn(d.props["bio"]) == BioDefaultColumn();
  }

  /**
    Without a mapping the intended list is the default User columns as text,
    then `id`, `created_at`, `updated_at`: `full_name` defaults to 'User',
    `avatar` to the placeholder image, and `bio` is nullable.
   */
  lemma DefaultColumns(env: Option<string>, parse: string -> Option<Value>)
    requires env.None? || env == Some("")
    ensures IntendedBuiltColumns(env, parse) == Ok(DefaultColumnList())
    ensures forall i :: 0 <= i < 3 ==> Lookup(DefaultColumnList()[i], "type") == Str("text")
    ensures Lookup(DefaultColumnList()[0], "default") == Str("'User'")
    ensures Lookup(DefaultColumnList()[1], "default") == Str("'https://example.com/default-avatar.png'")
    ensures Lookup(DefaultColumnList()[2], "isNullable") == Bool(true)
  {
    DefaultColumnsAre();
    DefaultColumnFacts();
  }

  /** The three mapped default columns: typed as text, with their defaults and nullability. */
  lemma DefaultColumnFacts()
    ensures forall i :: 0 <= i < 3 ==> Lookup(DefaultColumnList()[i], "type") == Str("text")
    ensures Lookup(DefaultColumnList()[0], "default") == Str("'User'")
    ensures Lookup(DefaultColumnList()[1], "default") == Str("'https://example.com/default-avatar.png'")
    ensures Lookup(DefaultColumnList()[2], "isNullable") == Bool(true)
  {
    var cols := DefaultColumnList();
    assert cols[0] == FullNameDefaultColumn() && cols[1] == AvatarDefaultColumn() && cols[2] == BioDefaultColumn();
  }

  /** The names of the default list, in order. */
  lemma DefaultColumnNames()
    ensures ColumnNames(DefaultColumnList()) ==
      [Str("full_name"), Str("avatar"), Str("bio"), Str("id"), Str("created_at"), Str("updated_at")]
  {
    var cols := DefaultColumnList();
    assert ColumnNames(cols[5..]) == [Str("updated_at")];
    assert ColumnNames(cols[4..]) == [Str("created_at"), Str("updated_at")];
    assert ColumnNames(cols[3..]) == [Str("id"), Str("created_at"), Str("updated_at")];
    assert ColumnNames(cols[2..]) == [Str("bio"), Str("id"), Str("created_at"), Str("updated_at")];
  }

  /** The database accepts the default list in one table. */
  lemma DefaultColumnsDistinct()
    ensures DistinctStringNames(DefaultColumnList())
  {
    var cols := DefaultColumnList();
    var names := ["full_name", "avatar", "bio", "id", "created_at", "updated_at"];
    assert forall i :: 0 <= i < 6 ==> ColumnName(cols[i]) == Str(names[i]);
    DistinctLiteralNames();
    DistinctByNames(cols, names);
  }

  /** The six built names differ pairwise. */
  lemma DistinctLiteralNames()
    ensures var names := ["full_name", "avatar", "bio", "id", "created_at", "updated_at"];
      forall i, j :: 0 <= i < j < 6 ==> names[i] != names[j]
  {
    var names := ["full_name", "avatar", "bio", "id", "created_at", "updated_at"];
    assert forall i :: 0 <= i < 6 ==> |names[i]| == [9, 6, 3, 2, 10, 10][i];
    assert names[4][0] != names[5][0];
  }

  /** Whatever the mapping, six columns: three mapped ones typed as text, then the system columns. */
  lemma ColumnsForShape(fieldMapping: Value)
    ensures |ColumnsFor(fieldMapping)| == 6
    ensures forall i :: 0 <= i < 3 ==> Lookup(ColumnsFor(fieldMapping)[i], "type") == Str("text")
    ensures ColumnsFor(fieldMapping)[3..] == SystemColumns()
  {
  }

  /** Each of the first three columns is built from the merged entry of its field. */
  lemma ColumnsForAt(fieldMapping: Value, i: nat)
    requires i < 3
    ensures ColumnsFor(fieldMapping)[i] == MappedColumn(MergedEntry(fieldMapping, MappedFields[i]))
  {
    var heads := [MappedColumn(MergedEntry(fieldMapping, MappedFields[0])),
      MappedColumn(MergedEntry(fieldMapping, MappedFields[1])),
      MappedColumn(MergedEntry(fieldMapping, MappedFields[2]))];
    assert ColumnsFor(fieldMapping)[i] == (heads + SystemColumns())[i] == heads[i];
  }

  /** A mapped field the host leaves falsy gets the default column. */
  lemma FalsyEntryFallsBack(fieldMapping: Value, i: nat)
    requires i < 3 && !Truthy(Get(fieldMapping, MappedFields[i]))
    ensures ColumnsFor(fieldMapping)[i] == DefaultColumnList()[i]
  {
    DefaultColumnsAre();
  }

  /** Keys other than the three abstract fields do not reach the column list. */
  lemma UnknownKeysIgnored(a: Value, b: Value)
    requires Truthy(a) == Truthy(b)
    requires forall k :: k in MappedFields ==> Get(a, k) == Get(b, k)
    ensures ColumnsFor(a) == ColumnsFor(b)
  {
    assert MappedFields[0] in MappedFields && MappedFields[1] in MappedFields && MappedFields[2] in MappedFields;
  }

  /** A host entry given as an object keeps its own properties, `type` aside. */
  lemma ObjectEntryKeepsOptions(fieldMapping: Value, i: nat, key: string)
    requires i < 3 && Truthy(fieldMapping)
    requires Get(fieldMapping, MappedFields[i]).Obj? && key in Get(fieldMapping, MappedFields[i]).props && key != "type"
    ensures Lookup(ColumnsFor(fieldMapping)[i], key) == Get(fieldMapping, MappedFields[i]).props[key]
  {
  }

  /**
    A host entry given as a non-empty string (a column name instead of a column
    object) spreads into its characters, so the built column has no `name`,
    and the modelled driver rejects the table built from the list.
   */
  lemma StringEntryColumnHasNoName(fieldMapping: Value, i: nat)
    requires i < 3 && Truthy(fieldMapping)
    requires Get(fieldMapping, MappedFields[i]).Str? && Get(fieldMapping, MappedFields[i]).s != ""
    ensures ColumnName(ColumnsFor(fieldMapping)[i]) == Undefined
    ensures !DistinctStringNames(ColumnsFor(fieldMapping))
  {
    var entry := Get(fieldMapping, MappedFields[i]);
    var cols := ColumnsFor(fieldMapping);
    ColumnsForAt(fieldMapping, i);
    assert MergedEntry(fieldMapping, MappedFields[i]) == entry;
    StringSpreadHasNoName(entry);
    assert !NameAt(cols, i).Str?;
  }

  /** A string spreads into index properties only. */
  lemma StringSpreadHasNoName(entry: Value)
    requires entry.Str?
    ensures ColumnName(MappedColumn(entry)) == Undefined
  {
    assert !JsString.AllDigits("name") by {
      assert !JsString.IsDigit("name"[0]);
    }
    assert "name" !in Spread(entry);
  }

  // ----- `up` ---------------------------------------------------------------

  lemma {:induction false} MissingNamesIncludes(names: seq<Value>, existing: seq<Value>, v: Value)
    ensures Includes(MissingNames(names, existing), v) <==> Includes(names, v) && !Includes(existing, v)
    decreases |names|
  {
    if |names| > 0 {
      var h := names[0];
      MissingNamesIncludes(names[1..], existing, v);
      IncludesConcat(if Includes(existing, h) then [] else [h], MissingNames(names[1..], existing), v);
      assert names == [h] + names[1..];
      IncludesConcat([h], names[1..], v);
      assert Includes([h], v) <==> StrictEquals(h, v);
      if StrictEquals(h, v) {
        IncludesRespects(existing, h, v);
      }
    }
  }

  /** Filtering by the missing names keeps exactly the columns whose names the table lacks. */
  lemma {:induction false} ColumnsToAddFilters(columns: seq<ColumnOptions>, missing: seq<Value>, existing: seq<Value>)
    requires forall c :: c in columns ==> (Includes(missing, ColumnName(c)) <==> !Includes(existing, ColumnName(c)))
    ensures ColumnsToAdd(columns, missing) == ColumnsAbsentFrom(columns, existing)
    decreases |columns|
  {
    if |columns| > 0 {
      assert columns[0] in columns;
      ColumnsToAddFilters(columns[1..], missing, existing);
    }
  }

  /** `up` adds exactly the columns whose name the table does not list, in the builder's order. */
  lemma ColumnsToAddAreAbsent(columns: seq<ColumnOptions>, existing: seq<Value>)
    ensures ColumnsToAdd(columns, MissingNames(ColumnNames(columns), existing)) == ColumnsAbsentFrom(columns, existing)
    ensures |MissingNames(ColumnNames(columns), existing)| > 0 <==> |ColumnsAbsentFrom(columns, existing)| > 0
  {
    var names := ColumnNames(columns);
    var missing := MissingNames(names, existing);
    forall c | c in columns
      ensures Includes(missing, ColumnName(c)) <==> !Includes(existing, ColumnName(c))
    {
      var i :| 0 <= i < |columns| && columns[i] == c;
      StrictEqualsReflexive(ColumnName(c));
      assert StrictEquals(names[i], ColumnName(c));
      MissingNamesIncludes(names, existing, ColumnName(c));
    }
    ColumnsToAddFilters(columns, missing, existing);
    var absent := ColumnsAbsentFrom(columns, existing);
    if |missing| > 0 {
      StrictEqualsReflexive(missing[0]);
      assert Includes(missing, missing[0]);
      MissingNamesIncludes(names, existing, missing[0]);
      var j :| 0 <= j < |names| && StrictEquals(names[j], missing[0]);
      IncludesRespects(existing, names[j], missing[0]);
      assert columns[j] in absent;
    }
  }

  /** The first addition of a fresh string name goes through; the rest run on the grown table. */
  lemma AddColumnFirst(tables: Tables, columns: seq<ColumnOptions>)
    requires Users in tables && |columns| > 0
    requires ColumnName(columns[0]).Str? && ColumnName(columns[0]) !in ColumnNames(tables[Users].columns)
    ensures Run(tables, AddColumnOps(columns)) ==
      Run(tables[Users := tables[Users].(columns := tables[Users].columns + [columns[0]])], AddColumnOps(columns[1..]))
  {
    var ops := AddColumnOps(columns);
    assert ops[0] == AddColumn(Users, columns[0]);
    assert ops[1..] == AddColumnOps(columns[1..]);
  }

  /** Additions that all go through start with a fresh string name. */
  lemma AddColumnFirstPasses(tables: Tables, columns: seq<ColumnOptions>)
    requires Users in tables && |columns| > 0 && Run(tables, AddColumnOps(columns)).outcome.Pass?
    ensures ColumnName(columns[0]).Str? && ColumnName(columns[0]) !in ColumnNames(tables[Users].columns)
  {
    var ops := AddColumnOps(columns);
    assert ops[0] == AddColumn(Users, columns[0]);
  }

  /** Adding columns whose names are distinct strings the table lacks appends them. */
  lemma {:induction false} RunAddColumns(tables: Tables, columns: seq<ColumnOptions>)
    requires Users in tables && DistinctStringNames(columns)
    requires forall c :: c in columns ==> ColumnName(c) !in ColumnNames(tables[Users].columns)
    ensures Run(tables, AddColumnOps(columns)) ==
      Execution(tables[Users := tables[Users].(columns := tables[Users].columns + columns)], Pass)
    decreases |columns|
  {
    var t := tables[Users];
    if |columns| == 0 {
      assert t.columns + columns == t.columns;
      assert tables[Users := t] == tables;
    } else {
      var c := columns[0];
      var rest := columns[1..];
      assert columns == [c] + rest;
      DistinctStringNamesCons(c, rest);
      assert c in columns;
      AddColumnFirst(tables, columns);
      var next := tables[Users := t.(columns := t.columns + [c])];
      assert forall d :: d in rest ==> d in columns;
      FreshAfterAppend(rest, t.columns, c);
      RunAddColumns(next, rest);
      AppendColumnsTwice(tables, Users, [c], rest);
    }
  }

  /** A completed run of additions appended its columns to the table. */
  lemma {:induction false} RunAddColumnsPassed(tables: Tables, columns: seq<ColumnOptions>)
    requires Users in tables && Run(tables, AddColumnOps(columns)).outcome.Pass?
    ensures Run(tables, AddColumnOps(columns)).tables == tables[Users := tables[Users].(columns := tables[Users].columns + columns)]
    decreases |columns|
  {
    var t := tables[Users];
    if |columns| == 0 {
      assert t.columns + columns == t.columns;
      assert tables[Users := t] == tables;
    } else {
      AddColumnFirstPasses(tables, columns);
      AddColumnFirst(tables, columns);
      var next := tables[Users := t.(columns := t.columns + [columns[0]])];
      RunAddColumnsPassed(next, columns[1..]);
      assert columns == [columns[0]] + columns[1..];
      AppendColumnsTwice(tables, Users, [columns[0]], columns[1..]);
    }
  }

  /** Names fresh for a table that gained one column: fresh before, and other than that column's. */
  lemma FreshAfterAppend(rest: seq<ColumnOptions>, columns: seq<ColumnOptions>, c: ColumnOptions)
    ensures (forall d :: d in rest ==> ColumnName(d) !in ColumnNames(columns + [c])) <==>
      (forall d :: d in rest ==> ColumnName(d) !in ColumnNames(columns)) && ColumnName(c) !in ColumnNames(rest)
  {
    ColumnNamesAppend(columns, [c]);
    assert ColumnNames([c]) == [ColumnName(c)];
    ColumnNamesMember(rest, ColumnName(c));
  }

  /** Whether `up` adds columns: it does exactly when the list names a column the table lacks. */
  lemma UpOnExistingTable(tables: Tables, columns: seq<ColumnOptions>, answer: string)
    requires Users in tables
    ensures var t := tables[Users];
      var toAdd := ColumnsAbsentFrom(columns, ColumnNames(t.columns));
      Migrate(tables, UpPlan(Ok(columns), Some(t), answer)) ==
        if |toAdd| > 0 && !DataSource.PromptAccepts(answer) then MigrationRun(tables, Fail(AddColumnsDeclined))
        else if t.rowCount > 0 && FirstUnsafe(toAdd).Some? then
          MigrationRun(tables, Fail(UnsafeColumn(ColumnName(FirstUnsafe(toAdd).value))))
        else Migrate(tables, Ok(AddColumnOps(toAdd)))
  {
    ColumnsToAddAreAbsent(columns, ColumnNames(tables[Users].columns));
  }

  /**
    On an existing table whose missing columns are approved (or none are
    missing) and pass the populated-table check, `up` appends exactly the
    missing columns, provided their names are distinct strings.
   */
  lemma UpAddsExactlyMissing(tables: Tables, columns: seq<ColumnOptions>, answer: string)
    requires Users in tables && DistinctStringNames(columns)
    requires var toAdd := ColumnsAbsentFrom(columns, ColumnNames(tables[Users].columns));
      (|toAdd| == 0 || DataSource.PromptAccepts(answer)) &&
      (tables[Users].rowCount == 0 || forall c :: c in toAdd ==> !Unsafe(c))
    ensures var t := tables[Users];
      Migrate(tables, UpPlan(Ok(columns), Some(t), answer)) ==
        MigrationRun(tables[Users := t.(columns := t.columns + ColumnsAbsentFrom(columns, ColumnNames(t.columns)))], Pass)
  {
    var t := tables[Users];
    var existing := ColumnNames(t.columns);
    var toAdd := ColumnsAbsentFrom(columns, existing);
    UpOnExistingTable(tables, columns, answer);
    AbsentKeepsDistinct(columns, existing);
    forall c | c in toAdd
      ensures ColumnName(c) !in existing
    {
      var i :| 0 <= i < |columns| && columns[i] == c;
      assert NameAt(columns, i).Str?;
      IncludesStr(existing, ColumnName(c).s);
    }
    RunAddColumns(tables, toAdd);
  }

  /** Keeping only the absent columns keeps their names distinct. */
  lemma {:induction false} AbsentKeepsDistinct(columns: seq<ColumnOptions>, existing: seq<Value>)
    requires DistinctStringNames(columns)
    ensures DistinctStringNames(ColumnsAbsentFrom(columns, existing))
    decreases |columns|
  {
    if |columns| > 0 {
      var c := columns[0];
      var rest := columns[1..];
      assert columns == [c] + rest;
      DistinctStringNamesCons(c, rest);
      AbsentKeepsDistinct(rest, existing);
      var r := ColumnsAbsentFrom(rest, existing);
      if Includes(existing, ColumnName(c)) {
        assert ColumnsAbsentFrom(columns, existing) == r;
      } else {
        assert ColumnsAbsentFrom(columns, existing) == [c] + r;
        NameAbsentFromSublist(r, rest, ColumnName(c));
        DistinctStringNamesCons(c, r);
      }
    }
  }

  /** A declined prompt stops `up` before any change. */
  lemma UpDeclinedChangesNothing(tables: Tables, columns: seq<ColumnOptions>, answer: string)
    requires !DataSource.PromptAccepts(answer)
    ensures Users !in tables ==>
      Migrate(tables, UpPlan(Ok(columns), TableIn(tables, Users), answer)) == MigrationRun(tables, Fail(CreateDeclined))
    ensures Users in tables && |ColumnsAbsentFrom(columns, ColumnNames(tables[Users].columns))| > 0 ==>
      Migrate(tables, UpPlan(Ok(columns), TableIn(tables, Users), answer)) == MigrationRun(tables, Fail(AddColumnsDeclined))
  {
    if Users in tables {
      UpOnExistingTable(tables, columns, answer);
    }
  }

  /** On a populated table a column to add without a default or nullable flag stops `up` before any change. */
  lemma UpRefusesUnsafe(tables: Tables, columns: seq<ColumnOptions>, answer: string, c: ColumnOptions)
    requires Users in tables && tables[Users].rowCount > 0 && DataSource.PromptAccepts(answer)
    requires c in columns && Unsafe(c) && !Includes(ColumnNames(tables[Users].columns), ColumnName(c))
    ensures Migrate(tables, UpPlan(Ok(columns), TableIn(tables, Users), answer)).tables == tables
    ensures Migrate(tables, UpPlan(Ok(columns), TableIn(tables, Users), answer)).outcome.Fail?
  {
    UpOnExistingTable(tables, columns, answer);
    assert c in ColumnsAbsentFrom(columns, ColumnNames(tables[Users].columns));
  }

  /** Creating the table: approved, it holds exactly the built columns and no rows. */
  lemma UpCreatesTable(tables: Tables, columns: seq<ColumnOptions>, answer: string)
    requires Users !in tables && DataSource.PromptAccepts(answer)
    ensures Migrate(tables, UpPlan(Ok(columns), TableIn(tables, Users), answer)) ==
      if DistinctStringNames(columns) then MigrationRun(tables[Users := Table(columns, 0, [], [])], Pass)
      else MigrationRun(tables, Fail(DriverError(CreateTable(Users, columns, true))))
  {
    RunOne(tables, CreateTable(Users, columns, true));
  }

  /** When the table already lists every built column, `up` changes nothing, whatever the answer. */
  lemma UpFindsNothingMissing(tables: Tables, columns: seq<ColumnOptions>, answer: string)
    requires Users in tables
    requires forall c :: c in columns ==> Includes(ColumnNames(tables[Users].columns), ColumnName(c))
    ensures Migrate(tables, UpPlan(Ok(columns), TableIn(tables, Users), answer)) == MigrationRun(tables, Pass)
  {
    UpOnExistingTable(tables, columns, answer);
    var toAdd := ColumnsAbsentFrom(columns, ColumnNames(tables[Users].columns));
    NoneAbsent(columns, ColumnNames(tables[Users].columns));
    assert AddColumnOps(toAdd) == [];
  }

  /** When the table has every name, no column is absent. */
  lemma {:induction false} NoneAbsent(columns: seq<ColumnOptions>, existing: seq<Value>)
    requires forall c :: c in columns ==> Includes(existing, ColumnName(c))
    ensures ColumnsAbsentFrom(columns, existing) == []
    decreases |columns|
  {
    if |columns| > 0 {
      assert columns[0] in columns;
      NoneAbsent(columns[1..], existing);
    }
  }

  /** Every built column is listed by a table whose columns hold them. */
  lemma ListsAll(columns: seq<ColumnOptions>, front: seq<ColumnOptions>, back: seq<ColumnOptions>)
    requires forall c :: c in columns ==> Includes(ColumnNames(front), ColumnName(c)) || c in back
    ensures forall c :: c in columns ==> Includes(ColumnNames(front + back), ColumnName(c))
  {
    ColumnNamesAppend(front, back);
    forall c | c in columns
      ensures Includes(ColumnNames(front + back), ColumnName(c))
    {
      IncludesConcat(ColumnNames(front), ColumnNames(back), ColumnName(c));
      if c in back {
        var i :| 0 <= i < |back| && back[i] == c;
        StrictEqualsReflexive(ColumnName(c));
        assert StrictEquals(ColumnNames(back)[i], ColumnName(c));
      }
    }
  }

  /**
    A completed `up` is idempotent: running it again changes nothing and succeeds,
    whatever the answer. It holds for any built list, so for the builder as
    written and as intended alike.
   */
  lemma UpIsIdempotent(tables: Tables, built: Result<seq<ColumnOptions>, MigrationError>, answer: string, again: string)
    requires Migrate(tables, UpPlan(built, TableIn(tables, Users), answer)).outcome.Pass?
    ensures var first := Migrate(tables, UpPlan(built, TableIn(tables, Users), answer));
      Migrate(first.tables, UpPlan(built, TableIn(first.tables, Users), again)) ==
        MigrationRun(first.tables, Pass)
  {
    var columns := built.value;
    var first := Migrate(tables, UpPlan(built, TableIn(tables, Users), answer));
    if Users !in tables {
      UpCreatesTable(tables, columns, answer);
      ListsAll(columns, [], columns);
      assert [] + columns == columns;
      UpFindsNothingMissing(first.tables, columns, again);
    } else {
      var t := tables[Users];
      var toAdd := ColumnsAbsentFrom(columns, ColumnNames(t.columns));
      UpOnExistingTable(tables, columns, answer);
      RunAddColumnsPassed(tables, toAdd);
      ListsAll(columns, t.columns, toAdd);
      UpFindsNothingMissing(first.tables, columns, again);
    }
  }

  /**
    `up` as written: without a usable mapping it throws at the debug read, before
    `getTable` and before any call, so the store is unchanged.
   */
  lemma UpWithoutMappingThrows(tables: Tables, env: Option<string>, parse: string -> Option<Value>, answer: string)
    requires env.None? || env == Some("") || (parse(env.value).Some? && DebugReadThrows(parse(env.value).value))
    ensures Migrate(tables, UpPlan(BuiltColumns(env, parse), TableIn(tables, Users), answer)) ==
      MigrationRun(tables, Fail(MappingTypeError))
  {
    NoMappingThrows(env, parse);
  }

  /**
    `up` with the intended builder: without `USER_CONFIG`, an approved run on a
    database without `users` creates it with the default columns.
   */
  lemma IntendedUpCreatesDefaultTable(tables: Tables, env: Option<string>, parse: string -> Option<Value>, answer: string)
    requires env.None? || env == Some("")
    requires Users !in tables && DataSource.PromptAccepts(answer)
    ensures Migrate(tables, UpPlan(IntendedBuiltColumns(env, parse), TableIn(tables, Users), answer)) ==
      MigrationRun(tables[Users := Table(DefaultColumnList(), 0, [], [])], Pass)
  {
    DefaultColumns(env, parse);
    DefaultColumnsDistinct();
    UpCreatesTable(tables, DefaultColumnList(), answer);
  }

  // ----- `down` -------------------------------------------------------------

  /** The columns left once each listed name is dropped. */
  function Stripped(columns: seq<ColumnOptions>, fields: seq<string>): seq<ColumnOptions>
    decreases |fields|
  {
    if |fields| == 0 then columns else Stripped(RemoveColumn(columns, fields[0]), fields[1..])
  }

  /** The columns left are those of the table named by none of the fields. */
  lemma {:induction false} StrippedKeeps(columns: seq<ColumnOptions>, fields: seq<string>, c: ColumnOptions)
    ensures c in Stripped(columns, fields) <==> c in columns && forall f :: f in fields ==> ColumnName(c) != Str(f)
    decreases |fields|
  {
    if |fields| > 0 {
      StrippedKeeps(RemoveColumn(columns, fields[0]), fields[1..], c);
      assert forall f :: f in fields <==> f == fields[0] || f in fields[1..];
    }
  }

  /** The drops `down` issues cannot throw; they remove the listed columns, whether the stale list or the table has them. */
  lemma {:induction false} RunDropOps(tables: Tables, names: seq<Value>, fields: seq<string>)
    requires Users in tables
    requires forall i, j :: 0 <= i < j < |fields| ==> fields[i] != fields[j]
    requires forall f :: f in fields ==> (Includes(names, Str(f)) <==> Str(f) in ColumnNames(tables[Users].columns))
    ensures Run(tables, DropOps(names, fields)) ==
      Execution(tables[Users := tables[Users].(columns := Stripped(tables[Users].columns, fields))], Pass)
    decreases |fields|
  {
    var t := tables[Users];
    if |fields| == 0 {
      assert tables[Users := t] == tables;
    } else {
      var f := fields[0];
      var rest := fields[1..];
      assert f in fields;
      var next := tables[Users := t.(columns := RemoveColumn(t.columns, f))];
      forall g | g in rest
        ensures Includes(names, Str(g)) <==> Str(g) in ColumnNames(next[Users].columns)
      {
        var k :| 0 <= k < |rest| && rest[k] == g;
        assert fields[k + 1] == g;
        RemoveColumnKeeps(t.columns, f, Str(g));
      }
      forall i, j | 0 <= i < j < |rest|
        ensures rest[i] != rest[j]
      {
        assert rest[i] == fields[i + 1] && rest[j] == fields[j + 1];
      }
      RunDropOps(next, names, rest);
      DropFirst(tables, names, fields);
      SetColumnsTwice(tables, Users, RemoveColumn(t.columns, f), Stripped(t.columns, fields));
    }
  }

  /** The first field is dropped when it is listed, and the rest run on what is left. */
  lemma DropFirst(tables: Tables, names: seq<Value>, fields: seq<string>)
    requires Users in tables && |fields| > 0
    requires Includes(names, Str(fields[0])) <==> Str(fields[0]) in ColumnNames(tables[Users].columns)
    ensures Run(tables, DropOps(names, fields)) ==
      Run(tables[Users := tables[Users].(columns := RemoveColumn(tables[Users].columns, fields[0]))], DropOps(names, fields[1..]))
  {
    var t := tables[Users];
    var f := fields[0];
    if Includes(names, Str(f)) {
      assert DropOps(names, fields) == [DropColumn(Users, f)] + DropOps(names, fields[1..]);
    } else {
      assert DropOps(names, fields) == DropOps(names, fields[1..]);
      RemoveColumnAbsent(t.columns, f);
      assert tables[Users := t.(columns := RemoveColumn(t.columns, f))] == tables;
    }
  }

  /**
    `down` on an existing table: it drops the mapped columns it finds, and drops
    the table when the column list fetched before those drops holds exactly
    the core columns; none of these calls can throw.
   */
  lemma DownEffect(tables: Tables)
    requires Users in tables
    ensures var t := tables[Users];
      Run(tables, DownOps(Some(t))) ==
        if OnlyCoreRemain(ColumnNames(t.columns)) then Execution(tables - {Users}, Pass)
        else Execution(tables[Users := t.(columns := Stripped(t.columns, ColumnsToRemove))], Pass)
  {
    var t := tables[Users];
    var names := ColumnNames(t.columns);
    forall f | f in ColumnsToRemove
      ensures Includes(names, Str(f)) <==> Str(f) in ColumnNames(t.columns)
    {
      IncludesStr(names, f);
    }
    RunDropOps(tables, names, ColumnsToRemove);
    var drops := DropOps(names, ColumnsToRemove);
    if OnlyCoreRemain(names) {
      RunAppend(tables, drops, [DropTable(Users)]);
      var kept := t.(columns := Stripped(t.columns, ColumnsToRemove));
      RunOne(tables[Users := kept], DropTable(Users));
      RemoveUpdated(tables, Users, kept);
    } else {
      assert drops + [] == drops;
    }
  }

  /** `down` on a database without the table changes nothing. */
  lemma DownWithoutTable(tables: Tables)
    requires Users !in tables
    ensures Run(tables, DownOps(TableIn(tables, Users))) == Execution(tables, Pass)
  {
  }

  /** The core-columns test holds exactly for a permutation of `id`, `created_at`, `updated_at`. */
  lemma OnlyCoreRemainIff(names: seq<Value>)
    ensures OnlyCoreRemain(names) <==> multiset(names) == multiset{Str("id"), Str("created_at"), Str("updated_at")}
  {
    IncludesStr(names, "id");
    IncludesStr(names, "created_at");
    IncludesStr(names, "updated_at");
    assert CoreColumns == ["id", "created_at", "updated_at"];
    assert "id" in CoreColumns && "created_at" in CoreColumns && "updated_at" in CoreColumns;
    AllThreeIff(names, Str("id"), Str("created_at"), Str("updated_at"));
  }

  /** Three values listed, each in a list of three, are exactly its contents. */
  lemma AllThreeIff(names: seq<Value>, a: Value, b: Value, c: Value)
    requires a != b && b != c && a != c
    ensures (|names| == 3 && a in names && b in names && c in names) <==> multiset(names) == multiset{a, b, c}
  {
    if |names| == 3 && a in names && b in names && c in names {
      assert names == [names[0], names[1], names[2]];
      assert multiset(names) == multiset{names[0], names[1], names[2]};
    }
    if multiset(names) == multiset{a, b, c} {
      assert |names| == |multiset(names)|;
      assert a in multiset(names) && b in multiset(names) && c in multiset(names);
    }
  }

  /** The default list without the mapped columns is the system columns. */
  lemma StrippedDefault()
    ensures Stripped(DefaultColumnList(), ColumnsToRemove) == SystemColumns()
  {
    var cols := DefaultColumnList();
    DefaultColumnsDistinct();
    assert ColumnName(cols[0]) == Str(ColumnsToRemove[0]);
    assert ColumnName(cols[1]) == Str(ColumnsToRemove[1]);
    assert ColumnName(cols[2]) == Str(ColumnsToRemove[2]);
    StrippedPrefix(cols, ColumnsToRemove);
    assert cols[3..] == SystemColumns();
  }

  /** Stripping, from a list of distinct names, the names of its first columns in their order leaves the rest. */
  lemma {:induction false} StrippedPrefix(columns: seq<ColumnOptions>, fields: seq<string>)
    requires |fields| <= |columns| && DistinctStringNames(columns)
    requires forall i :: 0 <= i < |fields| ==> ColumnName(columns[i]) == Str(fields[i])
    ensures Stripped(columns, fields) == columns[|fields|..]
    decreases |fields|
  {
    if |fields| > 0 {
      StrippedStep(columns, fields);
      StrippedPrefix(columns[1..], fields[1..]);
      assert columns[1..][|fields| - 1..] == columns[|fields|..];
    }
  }

  /** Stripping the first column's own name first drops just that column. */
  lemma StrippedStep(columns: seq<ColumnOptions>, fields: seq<string>)
    requires |columns| > 0 && |fields| > 0 && DistinctStringNames(columns)
    requires ColumnName(columns[0]) == Str(fields[0])
    ensures Stripped(columns, fields) == Stripped(columns[1..], fields[1..])
    ensures DistinctStringNames(columns[1..])
  {
    assert columns == [columns[0]] + columns[1..];
    DistinctStringNamesCons(columns[0], columns[1..]);
    RemoveColumnAbsent(columns[1..], fields[0]);
  }

  /** The names of the system columns: `id`, `created_at`, `updated_at`. */
  lemma SystemColumnNames()
    ensures ColumnNames(SystemColumns()) == [Str("id"), Str("created_at"), Str("updated_at")]
  {
    var sys := SystemColumns();
    assert ColumnNames(sys[2..]) == [Str("updated_at")];
    assert ColumnNames(sys[1..]) == [Str("created_at"), Str("updated_at")];
  }

  /**
    Because `down` decides on the list fetched before its drops, reverting a
    freshly created table leaves it with the system columns; only a second
    `down` drops it.
   */
  lemma DownAfterFreshCreate(tables: Tables)
    requires Users in tables && tables[Users] == Table(DefaultColumnList(), 0, [], [])
    ensures Run(tables, DownOps(TableIn(tables, Users))) ==
      Execution(tables[Users := Table(SystemColumns(), 0, [], [])], Pass)
    ensures var once := tables[Users := Table(SystemColumns(), 0, [], [])];
      Run(once, DownOps(TableIn(once, Users))) == Execution(tables - {Users}, Pass)
  {
    DefaultColumnNames();
    DownEffect(tables);
    StrippedDefault();
    var once := tables[Users := Table(SystemColumns(), 0, [], [])];
    DownEffect(once);
    SystemColumnNames();
    OnlyCoreRemainIff([Str("id"), Str("created_at"), Str("updated_at")]);
    RemoveUpdated(tables, Users, Table(SystemColumns(), 0, [], []));
  }
}
