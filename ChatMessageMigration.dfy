/**
  The migration for the `chat_messages` table: `up` creates it (a no-op when
  it exists) and then always creates its two indices and two foreign keys;
  `down` drops the foreign keys it finds on the fetched table, the indices and
  the table.
 */
module ChatMessageMigration {
  import opened Wrappers
  import opened JsValue
  import opened Schema

  const Messages: string := "chat_messages"

  function MessageColumns(): seq<ColumnOptions>
  {
    [
      Named("id", map["type" := Str("integer"), "isPrimary" := Bool(true),
          "isGenerated" := Bool(true), "generationStrategy" := Str("increment")]),
      Named("chat_id", map["type" := Str("int")]),
      Named("sender_id", map["type" := Str("int")]),
      Named("receiver_id", map["type" := Str("int")]),
      Named("replied_to", map["type" := Str("int"), "isNullable" := Bool(true)]),
      Named("text", map["type" := Str("text"), "isNullable" := Bool(true)]),
      Named("attachment", map["type" := Str("text"), "isNullable" := Bool(true)]),
      Named("deleted", map["type" := Str("boolean"), "default" := Bool(false)]),
      Named("created_at", map["type" := Str("timestamp"), "default" := Str("CURRENT_TIMESTAMP")]),
      Named("updated_at", map["type" := Str("timestamp"), "default" := Str("CURRENT_TIMESTAMP")])
    ]
  }

  /** The names of the ten columns, in the order `up` lists them. */
  const ColumnNameList: seq<string> := ["id", "chat_id", "sender_id", "receiver_id", "replied_to", "text",
    "attachment", "deleted", "created_at", "updated_at"]

  const IndexNames: seq<string> := ["IDX_CHAT_MESSAGE_CHAT", "IDX_CHAT_MESSAGE_REPLIED_TO"]

  function MessageIndices(): seq<TableIndex>
  {
    [TableIndex(IndexNames[0], ["chat_id"]), TableIndex(IndexNames[1], ["replied_to"])]
  }

  function ChatForeignKey(): TableForeignKey { TableForeignKey(["chat_id"], ["id"], "chats", "CASCADE") }

  /** The self-reference of a reply to the message it answers. */
  function RepliedToForeignKey(): TableForeignKey
  {
    TableForeignKey(["replied_to"], ["id"], Messages, "CASCADE")
  }

  function MessageForeignKeys(): seq<TableForeignKey>
  {
    [ChatForeignKey(), RepliedToForeignKey()]
  }

  function MessagesTable(): Table
  {
    Table(MessageColumns(), 0, MessageIndices(), MessageForeignKeys())
  }

  /** The calls of `up`; unlike the chats migration it checks nothing first. */
  function UpOps(): seq<Op>
  {
    CreateWithOps(Messages, MessageColumns(), MessageIndices(), MessageForeignKeys())
  }

  /** `fk.columnNames.indexOf("replied_to") !== -1 && fk.referencedTableName === "chat_messages"` */
  function IsReplyKey(): TableForeignKey -> bool
  {
    (fk: TableForeignKey) => "replied_to" in fk.columnNames && fk.referencedTableName == Messages
  }

  /** `fk.columnNames.indexOf("chat_id") !== -1` */
  function IsChatKey(): TableForeignKey -> bool
  {
    (fk: TableForeignKey) => "chat_id" in fk.columnNames
  }

  function ForeignKeyDrops(t: Table): seq<Op>
  {
    DropFound(Messages, FindForeignKey(t.foreignKeys, IsReplyKey()))
    + DropFound(Messages, FindForeignKey(t.foreignKeys, IsChatKey()))
  }

  /** The calls of `down`, all decided on the table fetched before the first. */
  function DownOps(messages: Option<Table>): seq<Op>
  {
    match messages
    case None => []
    case Some(t) => ForeignKeyDrops(t) + DropIndexOps(Messages, IndexNames) + [DropTable(Messages)]
  }

  /** `ChatMessageMigration1680300000001.up` */
  method Up(db: QueryRunner) returns (r: Outcome<Op>)
    modifies db
    ensures Execution(db.tables, r) == Run(old(db.tables), UpOps())
  {
    r := db.RunAll(UpOps());
  }

  /** `ChatMessageMigration1680300000001.down` */
  method Down(db: QueryRunner) returns (r: Outcome<Op>)
    modifies db
    ensures Execution(db.tables, r) == Run(old(db.tables), DownOps(old(db.GetTable(Messages))))
  {
    var table := db.GetTable(Messages);
    if table.None? {
      return Pass;
    }
    r := db.RunAll(DownOps(table));
  }

  // ----- properties -----------------------------------------------------------

  lemma MessageColumnsDistinct()
    ensures DistinctStringNames(MessageColumns())
  {
    MessageColumnFacts();
    MessageNamesDistinct();
    DistinctByNames(MessageColumns(), ColumnNameList);
  }

  /** The ten column names differ pairwise. */
  lemma MessageNamesDistinct()
    ensures forall i, j :: 0 <= i < j < |ColumnNameList| ==> ColumnNameList[i] != ColumnNameList[j]
  {
    var names := ColumnNameList;
    assert forall i :: 0 <= i < 10 ==> |names[i]| == [2, 7, 9, 11, 10, 4, 10, 7, 10, 10][i];
    assert names[1][0] != names[7][0];
    assert names[4][0] != names[6][0] && names[4][0] != names[8][0] && names[4][0] != names[9][0];
    assert names[6][0] != names[8][0] && names[6][0] != names[9][0] && names[8][0] != names[9][0];
  }

  /**
    The ten columns in order; `replied_to`, `text` and `attachment` are nullable and
    `deleted` defaults to false.
   */
  lemma MessageColumnFacts()
    ensures |MessageColumns()| == 10
    ensures forall i :: 0 <= i < 10 ==> ColumnName(MessageColumns()[i]) == Str(ColumnNameList[i])
    ensures forall i :: 4 <= i < 7 ==> Lookup(MessageColumns()[i], "isNullable") == Bool(true)
    ensures Lookup(MessageColumns()[7], "default") == Bool(false)
  {
  }

  /** `chat_id` references `chats.id` and `replied_to` references `chat_messages.id`, both with CASCADE. */
  lemma MessageForeignKeyFacts()
    ensures MessageForeignKeys()[0].columnNames == ["chat_id"] && MessageForeignKeys()[0].referencedTableName == "chats"
    ensures MessageForeignKeys()[1].columnNames == ["replied_to"] && MessageForeignKeys()[1].referencedTableName == Messages
    ensures forall i :: 0 <= i < 2 ==>
      (MessageForeignKeys()[i].referencedColumnNames == ["id"] && MessageForeignKeys()[i].onDelete == "CASCADE")
    ensures MessageIndices()[0].columnNames == ["chat_id"] && MessageIndices()[1].columnNames == ["replied_to"]
  {
  }

  /** The messages table has the two indices `down` drops, and their names differ. */
  lemma MessageIndicesFacts()
    ensures forall i :: 0 <= i < 2 ==> HasIndex(MessageIndices(), IndexNames[i])
    ensures forall i, j :: 0 <= i < j < 2 ==> IndexNames[i] != IndexNames[j]
  {
    var ix := MessageIndices();
    assert forall i :: 0 <= i < 2 ==> ix[i].name == IndexNames[i];
    assert |IndexNames[0]| != |IndexNames[1]|;
  }

  /** On a database without `chat_messages`, `up` creates exactly the messages table with its indices and foreign keys. */
  lemma UpCreatesMessages(tables: Tables)
    requires Messages !in tables
    ensures Run(tables, UpOps()) == Execution(tables[Messages := MessagesTable()], Pass)
  {
    MessageColumnsDistinct();
    MessageIndicesFacts();
    assert forall i :: 0 <= i < 2 ==> MessageIndices()[i].name == IndexNames[i];
    RunCreateWith(tables, Messages, MessageColumns(), MessageIndices(), MessageForeignKeys());
  }

  /**
    Without a guard, `up` on an existing table that already has the first
    index throws at that index and changes nothing: the table creation is
    skipped, but the index creation is not.
   */
  lemma UpOnExistingTableThrows(tables: Tables)
    requires Messages in tables && HasIndex(tables[Messages].indices, IndexNames[0])
    ensures Run(tables, UpOps()) == Execution(tables, Fail(CreateIndex(Messages, MessageIndices()[0])))
  {
    var ops := UpOps();
    assert ops[0] == CreateTable(Messages, MessageColumns(), true);
    assert ops[1] == CreateIndex(Messages, MessageIndices()[0]);
    assert ops[1..][0] == ops[1];
    assert Step(tables, ops[0]) == Some(tables);
  }

  /**
    On an existing table lacking both indices, `up` leaves the columns as they
    were and adds the two indices and, again, the two foreign keys.
   */
  lemma UpOnExistingTableAppends(tables: Tables)
    requires Messages in tables
    requires !HasIndex(tables[Messages].indices, IndexNames[0]) && !HasIndex(tables[Messages].indices, IndexNames[1])
    ensures var t := tables[Messages];
      Run(tables, UpOps()) == Execution(tables[Messages := t.(indices := t.indices + MessageIndices(),
                                                             foreignKeys := t.foreignKeys + MessageForeignKeys())], Pass)
  {
    MessageIndicesFacts();
    var t := tables[Messages];
    var create := [CreateTable(Messages, MessageColumns(), true)];
    var indexOps := CreateIndexOps(Messages, MessageIndices());
    var fkOps := CreateForeignKeyOps(Messages, MessageForeignKeys());
    RunOne(tables, create[0]);
    RunCreateIndices(tables, Messages, MessageIndices());
    var t1 := tables[Messages := t.(indices := t.indices + MessageIndices())];
    RunCreateForeignKeys(t1, Messages, MessageForeignKeys());
    RunAppend(tables, create, indexOps);
    RunAppend(tables, create + indexOps, fkOps);
    var t2 := t.(indices := t.indices + MessageIndices(), foreignKeys := t.foreignKeys + MessageForeignKeys());
    assert t1[Messages].(foreignKeys := t1[Messages].foreignKeys + MessageForeignKeys()) == t2;
    ReplaceTwice(tables, Messages, t1[Messages], t2);
  }

  /** `down` on a database without `chat_messages` changes nothing. */
  lemma DownWithoutMessages(tables: Tables)
    requires Messages !in tables
    ensures Run(tables, DownOps(TableIn(tables, Messages))) == Execution(tables, Pass)
  {
  }

  /** The calls before the index drops of `down` only drop foreign keys of `chat_messages`. */
  lemma ForeignKeyDropsOn(t: Table)
    ensures KeyDropsOn(ForeignKeyDrops(t), Messages)
  {
    DropFoundKeys(Messages, FindForeignKey(t.foreignKeys, IsReplyKey()));
    DropFoundKeys(Messages, FindForeignKey(t.foreignKeys, IsChatKey()));
    KeyDropsAppend(DropFound(Messages, FindForeignKey(t.foreignKeys, IsReplyKey())),
      DropFound(Messages, FindForeignKey(t.foreignKeys, IsChatKey())), Messages);
  }

  /** A completed `down` removes `chat_messages` and leaves every other table as it was. */
  lemma DownCompleted(tables: Tables)
    requires Messages in tables && Run(tables, DownOps(TableIn(tables, Messages))).outcome.Pass?
    ensures Run(tables, DownOps(TableIn(tables, Messages))).tables == tables - {Messages}
  {
    var ops := DownOps(TableIn(tables, Messages));
    ForeignKeyDropsOn(tables[Messages]);
    KeyDropsAreOn(ForeignKeyDrops(tables[Messages]), Messages);
    ThenIndicesAndTableOn(Messages, ForeignKeyDrops(tables[Messages]), IndexNames);
    RunDropsOnlyTarget(tables, ops, Messages);
  }

  /**
    On any fetched table, `down` drops a `replied_to` key only when it references
    `chat_messages` itself, unless the key also covers `chat_id` and the second
    find picks it. Every key dropped is one of the table's own.
   */
  lemma ReplyKeyNeedsSelfReference(t: Table)
    ensures forall op :: op in DropFound(Messages, FindForeignKey(t.foreignKeys, IsReplyKey())) ==>
      op.DropForeignKey? && op.foreignKey in t.foreignKeys &&
      "replied_to" in op.foreignKey.columnNames && op.foreignKey.referencedTableName == Messages
    ensures forall op :: op in ForeignKeyDrops(t) ==>
      op.DropForeignKey? && op.table == Messages && op.foreignKey in t.foreignKeys &&
      ("replied_to" in op.foreignKey.columnNames && op.foreignKey.referencedTableName != Messages ==>
        "chat_id" in op.foreignKey.columnNames)
    ensures (forall fk :: fk in t.foreignKeys && "replied_to" in fk.columnNames ==> fk.referencedTableName != Messages) ==>
      ForeignKeyDrops(t) == DropFound(Messages, FindForeignKey(t.foreignKeys, IsChatKey()))
  {
  }

  /** On the table `up` creates, `down` finds the reply key and then the chat key. */
  lemma FoundOnMessagesTable()
    ensures ForeignKeyDrops(MessagesTable()) == DropForeignKeyOps(Messages, [RepliedToForeignKey(), ChatForeignKey()])
  {
    var fks := MessageForeignKeys();
    assert !IsReplyKey()(fks[0]) && IsReplyKey()(fks[1]);
    assert IsChatKey()(fks[0]);
  }

  /** The two keys `down` looks up both belong to the messages table and differ. */
  lemma MessageForeignKeysDistinct()
    ensures var found := [RepliedToForeignKey(), ChatForeignKey()];
      (forall i :: 0 <= i < 2 ==> found[i] in MessageForeignKeys()) && found[0] != found[1]
  {
    assert RepliedToForeignKey().columnNames != ChatForeignKey().columnNames by {
      assert |"replied_to"| != |"chat_id"|;
    }
  }

  /** `down` on the table `up` creates drops it without a throw. */
  lemma DownOnMessagesTable(created: Tables)
    requires Messages in created && created[Messages] == MessagesTable()
    ensures Run(created, DownOps(TableIn(created, Messages))) == Execution(created - {Messages}, Pass)
  {
    FoundOnMessagesTable();
    DownOnKeysAndIndices(created);
  }

  /** `down` drops a table with the indices and foreign keys `up` creates, whatever its columns. */
  lemma DownOnKeysAndIndices(created: Tables)
    requires Messages in created
    requires created[Messages].indices == MessageIndices() && created[Messages].foreignKeys == MessageForeignKeys()
    requires ForeignKeyDrops(created[Messages]) == DropForeignKeyOps(Messages, [RepliedToForeignKey(), ChatForeignKey()])
    ensures Run(created, DownOps(TableIn(created, Messages))) == Execution(created - {Messages}, Pass)
  {
    MessageIndicesFacts();
    MessageForeignKeysDistinct();
    var found := [RepliedToForeignKey(), ChatForeignKey()];
    assert DownOps(TableIn(created, Messages)) == TeardownOps(Messages, found, IndexNames);
    RunTeardown(created, Messages, found, IndexNames);
  }

  /** `down` reverts `up`: on a database without `chat_messages`, running both leaves it as it was. */
  lemma DownRevertsUp(tables: Tables)
    requires Messages !in tables
    ensures var up := Run(tables, UpOps());
      Run(up.tables, DownOps(TableIn(up.tables, Messages))) == Execution(tables, Pass)
  {
    UpCreatesMessages(tables);
    DownOnMessagesTable(tables[Messages := MessagesTable()]);
    RemoveUpdated(tables, Messages, MessagesTable());
  }
}
