/**
  The migration for the `chats` table: `up` creates it with its indices and
  foreign keys unless it exists; `down` drops the foreign keys it finds on the
  fetched table, the three indices and the table.
 */
module ChatMigration {
  import opened Wrappers
  import opened JsValue
  import opened Schema

  const Chats: string := "chats"

  function ChatColumns(): seq<ColumnOptions>
  {
    [
      Named("id", map["type" := Str("integer"), "isPrimary" := Bool(true),
          "isGenerated" := Bool(true), "generationStrategy" := Str("increment")]),
      Named("user1_id", map["type" := Str("int")]),
      Named("user2_id", map["type" := Str("int")]),
      Named("user1_unread_count", map["type" := Str("int"), "default" := Num(0)]),
      Named("user2_unread_count", map["type" := Str("int"), "default" := Num(0)]),
      Named("last_message_id", map["type" := Str("int"), "isNullable" := Bool(true)]),
      Named("created_at", map["type" := Str("timestamp"), "default" := Str("CURRENT_TIMESTAMP")]),
      Named("updated_at", map["type" := Str("timestamp"), "default" := Str("CURRENT_TIMESTAMP")])
    ]
  }

  const IndexNames: seq<string> := ["IDX_CHAT_USER1", "IDX_CHAT_USER2", "IDX_CHAT_LAST_MESSAGE"]

  function ChatIndices(): seq<TableIndex>
  {
    [TableIndex(IndexNames[0], ["user1_id"]),
     TableIndex(IndexNames[1], ["user2_id"]),
     TableIndex(IndexNames[2], ["last_message_id"])]
  }

  function User1ForeignKey(): TableForeignKey { TableForeignKey(["user1_id"], ["id"], "users", "CASCADE") }
  function User2ForeignKey(): TableForeignKey { TableForeignKey(["user2_id"], ["id"], "users", "CASCADE") }
  function LastMessageForeignKey(): TableForeignKey
  {
    TableForeignKey(["last_message_id"], ["id"], "chat_messages", "SET NULL")
  }

  function ChatForeignKeys(): seq<TableForeignKey>
  {
    [User1ForeignKey(), User2ForeignKey(), LastMessageForeignKey()]
  }

  /** The table a completed `up` leaves. */
  function ChatsTable(): Table
  {
    Table(ChatColumns(), 0, ChatIndices(), ChatForeignKeys())
  }

  /** The calls of `up` after its existence check. */
  function UpOps(): seq<Op>
  {
    CreateWithOps(Chats, ChatColumns(), ChatIndices(), ChatForeignKeys())
  }

  /** `up` does nothing when the table exists. */
  function UpPlan(chats: Option<Table>): seq<Op>
  {
    if chats.Some? then [] else UpOps()
  }

  /** `fk => fk.columnNames.indexOf(column) !== -1` */
  function Covers(column: string): TableForeignKey -> bool
  {
    (fk: TableForeignKey) => column in fk.columnNames
  }

  /** The drops of the foreign keys found on the fetched table, covering `last_message_id`, `user1_id`, `user2_id` in that order. */
  function ForeignKeyDrops(t: Table): seq<Op>
  {
    DropFound(Chats, FindForeignKey(t.foreignKeys, Covers("last_message_id")))
    + DropFound(Chats, FindForeignKey(t.foreignKeys, Covers("user1_id")))
    + DropFound(Chats, FindForeignKey(t.foreignKeys, Covers("user2_id")))
  }

  /** The calls of `down`, all decided on the table fetched before the first. */
  function DownOps(chats: Option<Table>): seq<Op>
  {
    match chats
    case None => []
    case Some(t) => ForeignKeyDrops(t) + DropIndexOps(Chats, IndexNames) + [DropTable(Chats)]
  }

  /** `ChatMigration1680300000000.up` */
  method Up(db: QueryRunner) returns (r: Outcome<Op>)
    modifies db
    ensures Execution(db.tables, r) == Run(old(db.tables), UpPlan(old(db.GetTable(Chats))))
  {
    var existing := db.GetTable(Chats);
    if existing.Some? {
      return Pass;
    }
    r := db.RunAll(UpOps());
  }

  /** `ChatMigration1680300000000.down` */
  method Down(db: QueryRunner) returns (r: Outcome<Op>)
    modifies db
    ensures Execution(db.tables, r) == Run(old(db.tables), DownOps(old(db.GetTable(Chats))))
  {
    var table := db.GetTable(Chats);
    if table.None? {
      return Pass;
    }
    r := db.RunAll(DownOps(table));
  }

  // ----- properties -----------------------------------------------------------

  lemma ChatColumnsDistinct()
    ensures DistinctStringNames(ChatColumns())
  {
    var names := ["id", "user1_id", "user2_id", "user1_unread_count", "user2_unread_count",
                  "last_message_id", "created_at", "updated_at"];
    var cols := ChatColumns();
    assert forall i :: 0 <= i < 8 ==> ColumnName(cols[i]) == Str(names[i]);
    ChatNamesDistinct(names);
    DistinctByNames(cols, names);
  }

  /** The eight column names differ pairwise. */
  lemma ChatNamesDistinct(names: seq<string>)
    requires names == ["id", "user1_id", "user2_id", "user1_unread_count", "user2_unread_count",
                       "last_message_id", "created_at", "updated_at"]
    ensures forall i, j :: 0 <= i < j < |names| ==> names[i] != names[j]
  {
    assert forall i :: 0 <= i < 8 ==> |names[i]| == [2, 8, 8, 18, 18, 15, 10, 10][i];
    assert names[1][4] != names[2][4] && names[3][4] != names[4][4] && names[6][0] != names[7][0];
  }

  /** The eight columns in order; the unread counts default to 0 and `last_message_id` is nullable. */
  lemma ChatColumnFacts()
    ensures var cols := ChatColumns();
      |cols| == 8 &&
      ColumnName(cols[0]) == Str("id") && ColumnName(cols[1]) == Str("user1_id") &&
      ColumnName(cols[2]) == Str("user2_id") && ColumnName(cols[3]) == Str("user1_unread_count") &&
      ColumnName(cols[4]) == Str("user2_unread_count") && ColumnName(cols[5]) == Str("last_message_id") &&
      ColumnName(cols[6]) == Str("created_at") && ColumnName(cols[7]) == Str("updated_at")
    ensures Lookup(ChatColumns()[3], "default") == Num(0) && Lookup(ChatColumns()[4], "default") == Num(0)
    ensures Lookup(ChatColumns()[5], "isNullable") == Bool(true)
  {
  }

  /** Both user keys reference `users.id` with CASCADE; the last-message key references `chat_messages.id` with SET NULL. */
  lemma ChatForeignKeyFacts()
    ensures forall i :: 0 <= i < 2 ==>
      (ChatForeignKeys()[i].referencedTableName == "users" &&
       ChatForeignKeys()[i].referencedColumnNames == ["id"] && ChatForeignKeys()[i].onDelete == "CASCADE")
    ensures ChatForeignKeys()[2].referencedTableName == "chat_messages" && ChatForeignKeys()[2].onDelete == "SET NULL"
    ensures [ChatIndices()[0].columnNames, ChatIndices()[1].columnNames, ChatIndices()[2].columnNames] ==
      [["user1_id"], ["user2_id"], ["last_message_id"]]
  {
  }

  /** On a database without `chats`, `up` creates exactly the chats table with its indices and foreign keys. */
  lemma UpCreatesChats(tables: Tables)
    requires Chats !in tables
    ensures Run(tables, UpPlan(TableIn(tables, Chats))) == Execution(tables[Chats := ChatsTable()], Pass)
  {
    ChatColumnsDistinct();
    ChatIndicesPresent();
    assert forall i :: 0 <= i < 3 ==> ChatIndices()[i].name == IndexNames[i];
    RunCreateWith(tables, Chats, ChatColumns(), ChatIndices(), ChatForeignKeys());
  }

  /** `up` on a database that has `chats` changes nothing. */
  lemma UpSkipsExisting(tables: Tables)
    requires Chats in tables
    ensures Run(tables, UpPlan(TableIn(tables, Chats))) == Execution(tables, Pass)
  {
  }

  /** `down` on a database without `chats` changes nothing. */
  lemma DownWithoutChats(tables: Tables)
    requires Chats !in tables
    ensures Run(tables, DownOps(TableIn(tables, Chats))) == Execution(tables, Pass)
  {
  }

  /** The calls before the index drops of `down` only drop foreign keys of `chats`. */
  lemma ForeignKeyDropsOn(t: Table)
    ensures KeyDropsOn(ForeignKeyDrops(t), Chats)
  {
    var a := DropFound(Chats, FindForeignKey(t.foreignKeys, Covers("last_message_id")));
    var b := DropFound(Chats, FindForeignKey(t.foreignKeys, Covers("user1_id")));
    var c := DropFound(Chats, FindForeignKey(t.foreignKeys, Covers("user2_id")));
    DropFoundKeys(Chats, FindForeignKey(t.foreignKeys, Covers("last_message_id")));
    DropFoundKeys(Chats, FindForeignKey(t.foreignKeys, Covers("user1_id")));
    DropFoundKeys(Chats, FindForeignKey(t.foreignKeys, Covers("user2_id")));
    KeyDropsAppend(a, b, Chats);
    KeyDropsAppend(a + b, c, Chats);
  }

  /** A completed `down` removes `chats` and leaves every other table as it was. */
  lemma DownCompleted(tables: Tables)
    requires Chats in tables && Run(tables, DownOps(TableIn(tables, Chats))).outcome.Pass?
    ensures Run(tables, DownOps(TableIn(tables, Chats))).tables == tables - {Chats}
  {
    var ops := DownOps(TableIn(tables, Chats));
    ForeignKeyDropsOn(tables[Chats]);
    KeyDropsAreOn(ForeignKeyDrops(tables[Chats]), Chats);
    ThenIndicesAndTableOn(Chats, ForeignKeyDrops(tables[Chats]), IndexNames);
    RunDropsOnlyTarget(tables, ops, Chats);
  }

  /** The three foreign keys `up` creates are the ones `down` finds. */
  lemma FoundOnChatsTable()
    ensures ForeignKeyDrops(ChatsTable()) ==
      DropForeignKeyOps(Chats, [LastMessageForeignKey(), User1ForeignKey(), User2ForeignKey()])
  {
    ForeignKeyColumnsDiffer();
    FoundInOrder(ChatsTable(), LastMessageForeignKey(), User1ForeignKey(), User2ForeignKey());
  }

  /**
    On a table whose foreign keys are `user1`, `user2`, `lastMessage` in that order,
    each covering its own column and the earlier ones not covering a later column,
    `down` finds `lastMessage`, `user1`, `user2`.
   */
  lemma FoundInOrder(t: Table, lastMessage: TableForeignKey, user1: TableForeignKey, user2: TableForeignKey)
    requires t.foreignKeys == [user1, user2, lastMessage]
    requires Covers("last_message_id")(lastMessage) && !Covers("last_message_id")(user1) && !Covers("last_message_id")(user2)
    requires Covers("user1_id")(user1)
    requires Covers("user2_id")(user2) && !Covers("user2_id")(user1)
    ensures ForeignKeyDrops(t) == DropForeignKeyOps(Chats, [lastMessage, user1, user2])
  {
    var fks := t.foreignKeys;
    DropFoundAt(fks, Covers("last_message_id"), 2);
    DropFoundAt(fks, Covers("user1_id"), 0);
    DropFoundAt(fks, Covers("user2_id"), 1);
    ThreeDrops([lastMessage, user1, user2]);
  }

  /** `down` drops the first foreign key covering the column. */
  lemma DropFoundAt(fks: seq<TableForeignKey>, p: TableForeignKey -> bool, i: nat)
    requires i < |fks| && p(fks[i])
    requires forall j :: 0 <= j < i ==> !p(fks[j])
    ensures DropFound(Chats, FindForeignKey(fks, p)) == [DropForeignKey(Chats, fks[i])]
  {
    FindFirstMatch(fks, p, i);
  }

  /** The foreign-key drops for three keys, one call per key. */
  lemma ThreeDrops(found: seq<TableForeignKey>)
    requires |found| == 3
    ensures DropForeignKeyOps(Chats, found) ==
      [DropForeignKey(Chats, found[0])] + [DropForeignKey(Chats, found[1])] + [DropForeignKey(Chats, found[2])]
  {
  }

  /** The columns of the three foreign keys are pairwise different. */
  lemma ForeignKeyColumnsDiffer()
    ensures "last_message_id" != "user1_id" && "last_message_id" != "user2_id" && "user1_id" != "user2_id"
  {
    assert "user1_id"[4] != "user2_id"[4];
  }

  /** The chats table has the three indices `down` drops, and their names differ. */
  lemma ChatIndicesPresent()
    ensures forall i :: 0 <= i < 3 ==> HasIndex(ChatIndices(), IndexNames[i])
    ensures forall i, j :: 0 <= i < j < 3 ==> IndexNames[i] != IndexNames[j]
  {
    var ix := ChatIndices();
    assert forall i :: 0 <= i < 3 ==> ix[i].name == IndexNames[i];
    assert forall i :: 0 <= i < 3 ==> |IndexNames[i]| == [14, 14, 21][i];
    assert IndexNames[0][13] != IndexNames[1][13];
  }

  /** The three keys `down` looks up all belong to the chats table and are pairwise different. */
  lemma ChatForeignKeysDistinct()
    ensures var found := [LastMessageForeignKey(), User1ForeignKey(), User2ForeignKey()];
      (forall i :: 0 <= i < 3 ==> found[i] in ChatForeignKeys()) &&
      (forall i, j :: 0 <= i < j < 3 ==> found[i] != found[j])
  {
    ForeignKeyColumnsDiffer();
  }

  /** `down` on the table `up` creates drops it without a throw. */
  lemma DownOnChatsTable(created: Tables)
    requires Chats in created && created[Chats] == ChatsTable()
    ensures Run(created, DownOps(TableIn(created, Chats))) == Execution(created - {Chats}, Pass)
  {
    FoundOnChatsTable();
    ChatForeignKeysDistinct();
    ChatIndicesPresent();
    var found := [LastMessageForeignKey(), User1ForeignKey(), User2ForeignKey()];
    assert DownOps(TableIn(created, Chats)) == TeardownOps(Chats, found, IndexNames);
    RunTeardown(created, Chats, found, IndexNames);
  }

  /** `down` reverts `up`: on a database without `chats`, running both leaves it as it was. */
  lemma DownRevertsUp(tables: Tables)
    requires Chats !in tables
    ensures var up := Run(tables, UpPlan(TableIn(tables, Chats)));
      Run(up.tables, DownOps(TableIn(up.tables, Chats))) == Execution(tables, Pass)
  {
    UpCreatesChats(tables);
    DownOnChatsTable(tables[Chats := ChatsTable()]);
    RemoveUpdated(tables, Chats, ChatsTable());
  }

  /** The index drops stop at the first index the table lacks. */
  lemma IndexDropsStop(tables: Tables, missing: nat)
    requires Chats in tables && missing < 3 && !HasIndex(tables[Chats].indices, IndexNames[missing])
    requires forall i :: 0 <= i < missing ==> HasIndex(tables[Chats].indices, IndexNames[i])
    ensures Run(tables, DropIndexOps(Chats, IndexNames) + [DropTable(Chats)]).outcome.Fail?
    ensures Chats in Run(tables, DropIndexOps(Chats, IndexNames) + [DropTable(Chats)]).tables
  {
    ChatIndicesPresent();
    var indexOps := DropIndexOps(Chats, IndexNames);
    var before := indexOps[..missing];
    var after := indexOps[missing..] + [DropTable(Chats)];
    assert indexOps + [DropTable(Chats)] == before + after;
    assert DropIndexOps(Chats, IndexNames[..missing]) == before;
    RunDropIndices(tables, Chats, IndexNames[..missing]);
    RunAppend(tables, before, after);
    var s2 := Run(tables, before).tables;
    assert after[0] == DropIndex(Chats, IndexNames[missing]);
    assert Step(s2, after[0]).None?;
  }

  /** `down` throws when the fetched table lacks one of the three indices, and the table stays. */
  lemma DownNeedsIndices(tables: Tables, missing: nat)
    requires Chats in tables && missing < 3 && !HasIndex(tables[Chats].indices, IndexNames[missing])
    requires forall i :: 0 <= i < missing ==> HasIndex(tables[Chats].indices, IndexNames[i])
    ensures Run(tables, DownOps(TableIn(tables, Chats))).outcome.Fail?
    ensures Chats in Run(tables, DownOps(TableIn(tables, Chats))).tables
  {
    var t := tables[Chats];
    var fkOps := ForeignKeyDrops(t);
    ForeignKeyDropsOn(t);
    RunKeepsIndices(tables, fkOps, Chats);
    var mid := Run(tables, fkOps);
    var rest := DropIndexOps(Chats, IndexNames) + [DropTable(Chats)];
    RegroupOps(fkOps, DropIndexOps(Chats, IndexNames), [DropTable(Chats)]);
    RunAppend(tables, fkOps, rest);
    if mid.outcome.Pass? {
      IndexDropsStop(mid.tables, missing);
    }
  }
}
