/**
  Opening the database: which database the data source points at, the seed
  `users` table it creates when there is none, and the console prompt's
  acceptance test used by the migrations.
 */
module DataSource {
  import opened Wrappers
  import opened JsValue
  import opened Schema
  import JsString
  import ConfigServer

  /** `promptUser` resolves true when the typed answer, lower-cased, is `y` or `yes`. */
  predicate PromptAccepts(answer: string)
  {
    var a := JsString.ToLowerAscii(answer);
    a == "y" || a == "yes"
  }

  /** The answers `promptUser` approves are exactly `y` and `yes` in any mix of cases. */
  lemma PromptAcceptsExactly(answer: string)
    ensures PromptAccepts(answer) <==>
      (|answer| == 1 && answer[0] in "yY") ||
      (|answer| == 3 && answer[0] in "yY" && answer[1] in "eE" && answer[2] in "sS")
  {
    var a := JsString.ToLowerAscii(answer);
    if |answer| == 1 {
      assert a == "y" <==> a[0] == 'y';
    } else if |answer| == 3 {
      assert a == "yes" <==> a[0] == 'y' && a[1] == 'e' && a[2] == 's';
    }
  }

  /** Upper- and mixed-case forms of `y` and `yes` approve. */
  lemma PromptExamples()
    ensures PromptAccepts("Y") && PromptAccepts("YES") && PromptAccepts("Yes")
  {
    PromptAcceptsExactly("Y");
    PromptAcceptsExactly("YES");
    PromptAcceptsExactly("Yes");
  }

  /** An empty answer, a refusal and `yes` with a trailing space decline. */
  lemma PromptDeclineExamples()
    ensures !PromptAccepts("") && !PromptAccepts("n") && !PromptAccepts("yes ")
  {
    PromptAcceptsExactly("yes ");
    PromptAcceptsExactly("n");
  }

  /** `config.DB_TYPE === 'sqlite'`: the only database whose catalogue `createUsersTable` can read. */
  predicate IsSqlite(config: map<string, Value>)
  {
    StrictEquals(Lookup(config, "DB_TYPE"), Str("sqlite"))
  }

  /** `config.DB_TYPE === 'sqlite' ? config.DB_PATH : config.DB_NAME` */
  function DatabaseTarget(config: map<string, Value>): Value
  {
    if IsSqlite(config) then Lookup(config, "DB_PATH")
    else Lookup(config, "DB_NAME")
  }

  /** With the defaults the data source opens the SQLite file. */
  lemma DefaultTargetIsSqliteFile(production: bool)
    ensures DatabaseTarget(ConfigServer.DefaultConfig(production)) == Str("../service/chatdb.sqlite")
  {
  }

  /** The columns of the `CREATE TABLE users (...)` statement. */
  function SeedUsersColumns(): seq<ColumnOptions>
  {
    [
      Named("id", map["type" := Str("integer"), "isPrimary" := Bool(true),
          "isGenerated" := Bool(true), "generationStrategy" := Str("increment"), "isNullable" := Bool(false)]),
      Named("username", map["type" := Str("text"), "isNullable" := Bool(false)]),
      Named("random_id", map["type" := Str("text"), "isNullable" := Bool(false)]),
      Named("description", map["type" := Str("text"), "isNullable" := Bool(true)])
    ]
  }

  /** The seed table: the four columns and the one sample row. */
  function SeedUsersTable(): Table
  {
    Table(SeedUsersColumns(), 1, [], [])
  }

  /** The seed `users` table has four columns with distinct string names. */
  lemma SeedColumnsDistinct()
    ensures DistinctStringNames(SeedUsersColumns())
    ensures ColumnNames(SeedUsersColumns()) == [Str("id"), Str("username"), Str("random_id"), Str("description")]
  {
    var cols := SeedUsersColumns();
    assert ColumnName(cols[0]) == Str("id");
    assert ColumnName(cols[1]) == Str("username");
    assert ColumnName(cols[2]) == Str("random_id");
    assert ColumnName(cols[3]) == Str("description");
  }

  /**
    The existence check reads SQLite's catalogue `sqlite_master`; on any other
    database that query throws and `initDatasource` rejects.
   */
  datatype InitError = CatalogueQueryFailed

  /**
    `createUsersTable`: on SQLite, creates the seed `users` table with one row when
    the database has none; on any other database the catalogue query throws
    before anything is created.
   */
  method CreateUsersTable(db: QueryRunner, sqlite: bool) returns (r: Outcome<InitError>)
    modifies db
    ensures r.Fail? <==> !sqlite
    ensures r.Fail? ==> r.error == CatalogueQueryFailed && db.tables == old(db.tables)
    ensures r.Pass? && "users" in old(db.tables) ==> db.tables == old(db.tables)
    ensures r.Pass? && "users" !in old(db.tables) ==> db.tables == old(db.tables)["users" := SeedUsersTable()]
  {
    if !sqlite {
      return Fail(CatalogueQueryFailed);
    }
    var existing := db.GetTable("users");
    if existing.None? {
      SeedColumnsDistinct();
      var created := db.Execute(CreateTable("users", SeedUsersColumns(), false));
      var inserted := db.Execute(InsertRow("users"));
    }
    r := Pass;
  }

  /**
    `initDatasource` after the driver is open: the database it names, and the
    seed table created if needed. With a `DB_TYPE` other than `sqlite` it rejects
    at the catalogue query, with the store unchanged.
   */
  method InitDatasource(config: ConfigServer.ServerConfigStore, db: QueryRunner) returns (database: Value, r: Outcome<InitError>)
    modifies db
    ensures database == if IsSqlite(config.GetConfig()) then Lookup(config.GetConfig(), "DB_PATH")
                        else Lookup(config.GetConfig(), "DB_NAME")
    ensures r.Fail? <==> !IsSqlite(config.GetConfig())
    ensures r.Fail? ==> db.tables == old(db.tables)
    ensures r.Pass? && "users" in old(db.tables) ==> db.tables == old(db.tables)
    ensures r.Pass? && "users" !in old(db.tables) ==> db.tables == old(db.tables)["users" := SeedUsersTable()]
  {
    database := DatabaseTarget(config.GetConfig());
    r := CreateUsersTable(db, IsSqlite(config.GetConfig()));
  }
}
