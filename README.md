# Vue-Chat service core in Dafny

This project models the server side of the Vue-Chat widget at the point where
it meets a host application: the schema migrations that create or adapt the
`users`, `chats` and `chat_messages` tables; the configuration store they and
the entities read; the normalisation of a loaded user row through the
configured field mapping; the sample `CustomUser` entity; the authentication
middleware's token decision; the data source's seed table and prompt test;
and the widget's `shortenTimeString` helper.

How the model is organised:

- `Wrappers`, `JsString`, `JsValue`: JavaScript values as the core uses them.
  - Value kinds are `undefined`, `null`, booleans, integral numbers, strings, and objects, arrays and functions.
  - Objects, arrays and functions carry an identity, so `===` compares identities on them.
  - Also modelled: truthiness, `?.`, object spread, `includes`, `String(v)` as a property key, `split`, `parseInt(_, 10)` and ASCII `toLowerCase`.
- `Schema`: the relational store as seen through TypeORM's query runner.
  - A map from table name to table. A table has an ordered column list, a row count, indices and foreign keys.
  - `Step` states each driver call's effect, or that it throws.
  - `Run` performs calls in order and stops at the first throw.
  - The class `QueryRunner` holds the store. Its methods are `GetTable`, `Execute` and `RunAll`.
- `UserMigration`, `ChatMigration`, `ChatMessageMigration`: the three migrations.
  - Each `up`/`down` is an imperative method on the `QueryRunner`.
  - Each method is proved equal to running a list of calls computed from the state fetched before the first call.
  - Lemmas then characterise that list: what is created, added or dropped, what throws, round trips and idempotence.
- `Config` (`config.ts`) and `ConfigServer` (`config.server.ts`): the module-level configuration records, as classes with `SetConfig`, `SetConfigVariable` and read functions.
- `BaseUser`, `CustomUser`: the entity classes, with `normalize` as a method over the entity's properties and the accessors of `CustomUser`.
- `DataSource`: the prompt's acceptance test, the database-path choice and `createUsersTable`.
- `AuthMiddleware`: the request decision. It is a step-by-step method proved equal to a decision function, and lemmas cover each branch.
- `Helpers`: `shortenTimeString`.

Parameters stand in for the environment and for foreign calls:

- the operator's typed answer at the approval prompt;
- `process.env.USER_CONFIG`, as an optional string;
- `JSON.parse`, as a function that may fail;
- `jwt.verify` and the configured session lookup, as functions that may fail;
- the class `generateCustomUserClass` returns, as a value.

## Model

| member | source | states |
|---|---|---|
| UserMigration.BuildUserTableColumns | service/src/database/migrations/1680300000005-UserMigration.ts:120-182 | The builder as written. A set but unparsable `USER_CONFIG` gives the invalid-JSON error. An unset or empty one, or one whose value lacks `User.field_mapping`, gives the TypeError of the debug read at line 147. Otherwise the merging loop gives the three merged specs typed `text`, then `id`, `created_at`, `updated_at`. |
| UserMigration.NoMappingThrows | service/src/database/migrations/1680300000005-UserMigration.ts:146-147 | As written, the builder throws a TypeError when `USER_CONFIG` is unset or empty, or when the parsed value lacks `User.field_mapping`. |
| UserMigration.AsWrittenDiffersOnlyByDebugRead | service/src/database/migrations/1680300000005-UserMigration.ts:146-149 | The as-written and intended builders differ exactly when the debug read throws. |
| UserMigration.DefaultColumnsAre | service/src/database/migrations/1680300000005-UserMigration.ts:152-179 | Without a host mapping the list is the defaults' columns followed by the system columns. |
| UserMigration.DefaultColumns | service/src/database/migrations/1680300000005-UserMigration.ts:152-179 | Without `USER_CONFIG` the intended list is the default list. Its mapped columns are `text`; `full_name` and `avatar` carry their defaults; `bio` is nullable. |
| UserMigration.DefaultColumnNames | service/src/database/migrations/1680300000005-UserMigration.ts:157-179 | The default list is named `full_name`, `avatar`, `bio`, `id`, `created_at`, `updated_at`, in that order. |
| UserMigration.DefaultColumnsDistinct | service/src/database/migrations/1680300000005-UserMigration.ts:157-179 | The default names are strings and pairwise distinct, so the table can be created. |
| UserMigration.SystemColumnNames | service/src/database/migrations/1680300000005-UserMigration.ts:161-179 | The pushed columns are `id`, `created_at`, `updated_at`. |
| UserMigration.ColumnsForShape | service/src/database/migrations/1680300000005-UserMigration.ts:157-179 | For any mapping: exactly 6 columns. The first three are typed `text`; the last three are the system columns. |
| UserMigration.FalsyEntryFallsBack | service/src/database/migrations/1680300000005-UserMigration.ts:153-155 | A falsy custom entry, or a falsy mapping, yields that field's default column. |
| UserMigration.UnknownKeysIgnored | service/src/database/migrations/1680300000005-UserMigration.ts:153-155 | Two mappings that agree on truthiness and on the three keys give the same columns. Other keys have no effect. |
| UserMigration.ObjectEntryKeepsOptions | service/src/database/migrations/1680300000005-UserMigration.ts:154-159 | A truthy object entry is spread into its column; every option other than `type` is kept. |
| UserMigration.StringEntryColumnHasNoName | service/src/database/migrations/1680300000005-UserMigration.ts:154-159 | A non-empty string entry spreads into index keys. The column has no name, and the list no longer has distinct string names. |
| UserMigration.StringSpreadHasNoName | service/src/database/migrations/1680300000005-UserMigration.ts:157-159 | Spreading any string gives a column without `name`. |
| UserMigration.MissingNamesIncludes | service/src/database/migrations/1680300000005-UserMigration.ts:44 | A name is missing exactly when the built list has it and the table does not. |
| UserMigration.ColumnsAbsentFrom | service/src/database/migrations/1680300000005-UserMigration.ts:42-58 | Reference definition: a column is selected exactly when the table lists no column of its name. The selection is no longer than the input. |
| UserMigration.ColumnsToAddFilters | service/src/database/migrations/1680300000005-UserMigration.ts:58 | Filtering by a list that marks exactly the unlisted names selects the absent columns. |
| UserMigration.ColumnsToAddAreAbsent | service/src/database/migrations/1680300000005-UserMigration.ts:42-58 | The columns `up` adds are exactly the built columns whose name the table does not list, in built order. Some name is missing iff some column is to be added. |
| UserMigration.FirstUnsafe | service/src/database/migrations/1680300000005-UserMigration.ts:63-73 | The refused column lacks both a default and the nullable flag. There is none iff every column has one of them. |
| UserMigration.FindUnsafe | service/src/database/migrations/1680300000005-UserMigration.ts:65-72 | The check loop finds the first unsafe column, or none. |
| UserMigration.AddColumnOps | service/src/database/migrations/1680300000005-UserMigration.ts:76-81 | One `addColumn("users", c)` per column to add, in order. |
| UserMigration.AddColumns | service/src/database/migrations/1680300000005-UserMigration.ts:76-81 | The add loop has the effect of running those calls in order and stops at the first throw. |
| UserMigration.Up | service/src/database/migrations/1680300000005-UserMigration.ts:15-85 | `up` leaves the store and outcome of its plan over the as-written list and the state fetched first: the builder's error, a declined prompt, a refused unsafe column, or the calls carried out. |
| UserMigration.RunAddColumns | service/src/database/migrations/1680300000005-UserMigration.ts:76-81 | Adding fresh, distinct columns appends them to `users`, in order, without a throw. |
| UserMigration.RunAddColumnsPassed | service/src/database/migrations/1680300000005-UserMigration.ts:76-81 | Whenever the add calls all pass, the columns were appended in order. |
| UserMigration.UpOnExistingTable | service/src/database/migrations/1680300000005-UserMigration.ts:38-81 | On an existing table: a declined prompt when columns are missing, else a refusal on the first unsafe absent column of a populated table, else the additions. |
| UserMigration.UpAddsExactlyMissing | service/src/database/migrations/1680300000005-UserMigration.ts:42-81 | When approved and safe, `up` appends exactly the absent built columns in built order. Nothing else changes. |
| UserMigration.UpDeclinedChangesNothing | service/src/database/migrations/1680300000005-UserMigration.ts:20-55 | A declined prompt throws before any call, whether creating the table or adding missing columns. |
| UserMigration.UpRefusesUnsafe | service/src/database/migrations/1680300000005-UserMigration.ts:60-73 | On a populated table, an absent column without default and nullable flag makes `up` throw with the store unchanged. |
| UserMigration.UpCreatesTable | service/src/database/migrations/1680300000005-UserMigration.ts:20-37 | On an absent table, when approved, `users` is created with exactly the built columns. A list the driver rejects throws with nothing created. |
| UserMigration.UpFindsNothingMissing | service/src/database/migrations/1680300000005-UserMigration.ts:42-81 | When every built name is listed, `up` passes without any call. |
| UserMigration.UpIsIdempotent | service/src/database/migrations/1680300000005-UserMigration.ts:15-85 | For any built list, as written or as intended: after a passing `up`, a second `up` with any answer passes and changes nothing. |
| UserMigration.UpWithoutMappingThrows | service/src/database/migrations/1680300000005-UserMigration.ts:15-19 | As written, `up` without a usable mapping fails with the TypeError of line 147, before `getTable` and with the store unchanged. |
| UserMigration.IntendedUpCreatesDefaultTable | service/src/database/migrations/1680300000005-UserMigration.ts:15-37 | With the intended builder and no `USER_CONFIG`, an approved `up` on a database without `users` creates it with exactly the default columns. |
| UserMigration.Down | service/src/database/migrations/1680300000005-UserMigration.ts:87-118 | `down` has the effect of its planned calls. Drops of the listed mapped columns and, when only the core columns were listed, the table drop are all decided on the column list fetched first. |
| UserMigration.StrippedKeeps | service/src/database/migrations/1680300000005-UserMigration.ts:95-103 | After the drops, a column remains exactly when its name is none of `full_name`, `avatar`, `bio`. |
| UserMigration.RunDropOps | service/src/database/migrations/1680300000005-UserMigration.ts:97-103 | Dropping exactly the listed mapped columns passes and removes them. |
| UserMigration.DownEffect | service/src/database/migrations/1680300000005-UserMigration.ts:87-118 | When the fetched list was exactly the core columns, `users` is dropped. Otherwise the three mapped columns are removed and the table stays. Either way there is no throw. |
| UserMigration.DownWithoutTable | service/src/database/migrations/1680300000005-UserMigration.ts:88-92 | `down` on an absent table changes nothing. |
| UserMigration.OnlyCoreRemainIff | service/src/database/migrations/1680300000005-UserMigration.ts:106-110 | The core test holds iff the names are, as a multiset, exactly `id`, `created_at`, `updated_at`. |
| UserMigration.StrippedDefault | service/src/database/migrations/1680300000005-UserMigration.ts:95-103 | Stripping the default list leaves the system columns. |
| UserMigration.DownAfterFreshCreate | service/src/database/migrations/1680300000005-UserMigration.ts:87-118 | A first `down` after creating the default table keeps `users` with the system columns only. The table goes only on a second `down`. |
| ChatMigration.Up | service/src/database/migrations/1680300000000-ChatMigration.ts:10-122 | `up` has the effect of its plan: nothing when `chats` exists, else the create, index and foreign-key calls. |
| ChatMigration.Down | service/src/database/migrations/1680300000000-ChatMigration.ts:124-165 | `down` has the effect of its planned drops, over the table fetched first. |
| ChatMigration.ChatColumnsDistinct | service/src/database/migrations/1680300000000-ChatMigration.ts:16-63 | The chat columns have distinct string names. |
| ChatMigration.ChatColumnFacts | service/src/database/migrations/1680300000000-ChatMigration.ts:19-60 | There are eight columns, in the source's order. Both unread counts default to 0; `last_message_id` is nullable. |
| ChatMigration.ChatForeignKeyFacts | service/src/database/migrations/1680300000000-ChatMigration.ts:66-119 | The indices are on `user1_id`, `user2_id` and `last_message_id`. The user keys reference `users.id` with CASCADE; the last-message key references `chat_messages` with SET NULL. |
| ChatMigration.UpCreatesChats | service/src/database/migrations/1680300000000-ChatMigration.ts:16-119 | On a database without `chats`, `up` creates exactly the chats table with its three indices and three foreign keys. |
| ChatMigration.UpSkipsExisting | service/src/database/migrations/1680300000000-ChatMigration.ts:11-14 | `up` with `chats` present changes nothing. |
| ChatMigration.DownWithoutChats | service/src/database/migrations/1680300000000-ChatMigration.ts:125-130 | `down` with `chats` absent changes nothing. |
| ChatMigration.DownCompleted | service/src/database/migrations/1680300000000-ChatMigration.ts:156-162 | A `down` that passes leaves `chats` absent and every other table unchanged. |
| ChatMigration.FoundOnChatsTable | service/src/database/migrations/1680300000000-ChatMigration.ts:132-154 | On the created table the three finds return the last-message, user1 and user2 keys, in that order. |
| ChatMigration.ChatIndicesPresent | service/src/database/migrations/1680300000000-ChatMigration.ts:66-86 | The three created indices carry the three names `down` drops, and those names are distinct. |
| ChatMigration.ChatForeignKeysDistinct | service/src/database/migrations/1680300000000-ChatMigration.ts:89-119 | The keys found are on the table and pairwise distinct. |
| ChatMigration.DownOnChatsTable | service/src/database/migrations/1680300000000-ChatMigration.ts:124-165 | `down` on the table `up` creates drops it without a throw. |
| ChatMigration.DownRevertsUp | service/src/database/migrations/1680300000000-ChatMigration.ts:10-165 | Round trip: on a database without `chats`, `up` then `down` restores the store exactly. |
| ChatMigration.IndexDropsStop | service/src/database/migrations/1680300000000-ChatMigration.ts:156-162 | If one of the index drops finds no index, the run throws and `chats` stays. |
| ChatMigration.DownNeedsIndices | service/src/database/migrations/1680300000000-ChatMigration.ts:156-162 | The index drops are unconditional. When an index is missing, `down` throws and `chats` stays. |
| ChatMessageMigration.Up | service/src/database/migrations/1680300000001-ChatMessageMigration.ts:10-108 | `up` has the effect of its unguarded create, index and foreign-key calls. |
| ChatMessageMigration.Down | service/src/database/migrations/1680300000001-ChatMessageMigration.ts:110-142 | `down` has the effect of its planned drops, over the table fetched first. |
| ChatMessageMigration.MessageColumnsDistinct | service/src/database/migrations/1680300000001-ChatMessageMigration.ts:11-67 | The message columns have distinct string names. |
| ChatMessageMigration.MessageColumnFacts | service/src/database/migrations/1680300000001-ChatMessageMigration.ts:14-64 | There are ten columns, in the source's order. `replied_to`, `text` and `attachment` are nullable; `deleted` defaults to false. |
| ChatMessageMigration.MessageForeignKeyFacts | service/src/database/migrations/1680300000001-ChatMessageMigration.ts:69-105 | The indices are on `chat_id` and `replied_to`. The keys are `chat_id` to `chats.id` and `replied_to` to `chat_messages.id`, both CASCADE. |
| ChatMessageMigration.MessageIndicesFacts | service/src/database/migrations/1680300000001-ChatMessageMigration.ts:69-83 | Both created indices carry the names `down` drops, and the names are distinct. |
| ChatMessageMigration.UpCreatesMessages | service/src/database/migrations/1680300000001-ChatMessageMigration.ts:10-108 | On a database without `chat_messages`, `up` creates exactly that table with its indices and keys. |
| ChatMessageMigration.UpOnExistingTableThrows | service/src/database/migrations/1680300000001-ChatMessageMigration.ts:11-76 | There is no existence guard. On an existing table that already has the first index, `up` throws at that index with nothing changed. |
| ChatMessageMigration.UpOnExistingTableAppends | service/src/database/migrations/1680300000001-ChatMessageMigration.ts:11-105 | On an existing table without those indices, `up` appends the indices and the foreign keys a second time. |
| ChatMessageMigration.DownWithoutMessages | service/src/database/migrations/1680300000001-ChatMessageMigration.ts:111-116 | `down` with the table absent changes nothing. |
| ChatMessageMigration.DownCompleted | service/src/database/migrations/1680300000001-ChatMessageMigration.ts:136-141 | A `down` that passes leaves `chat_messages` absent and every other table unchanged. |
| ChatMessageMigration.ReplyKeyNeedsSelfReference | service/src/database/migrations/1680300000001-ChatMessageMigration.ts:119-126 | On any fetched table, the first find drops only a table's own `replied_to` key that references `chat_messages`. A dropped `replied_to` key that references another table also covers `chat_id`, so the second find picked it. Without a self-referencing `replied_to` key, only the `chat_id` drop is issued. |
| ChatMessageMigration.FoundOnMessagesTable | service/src/database/migrations/1680300000001-ChatMessageMigration.ts:118-134 | On the created table the finds return the reply key, then the chat key. |
| ChatMessageMigration.DownOnMessagesTable | service/src/database/migrations/1680300000001-ChatMessageMigration.ts:110-142 | `down` on the table `up` creates drops it without a throw. |
| ChatMessageMigration.DownRevertsUp | service/src/database/migrations/1680300000001-ChatMessageMigration.ts:10-142 | Round trip: on a database without `chat_messages`, `up` then `down` restores the store exactly. |
| Schema.TableIn | service/src/database/migrations/1680300000005-UserMigration.ts:19 | `getTable` finds a table exactly when the store has one of that name. |
| Schema.FindForeignKey | service/src/database/migrations/1680300000000-ChatMigration.ts:133-135 | `find` returns a matching key of the list, the first one, and finds none iff no key matches. |
| Schema.FindFirstMatch | service/src/database/migrations/1680300000000-ChatMigration.ts:133-135 | When position `i` is the first key that matches, `find` returns the key at `i`. |
| Schema.QueryRunner.Execute | service/src/database/migrations/1680300000000-ChatMigration.ts:16-63 | One driver call: it reports whether it threw, and the store becomes the call's effect or stays as it was. |
| Schema.QueryRunner.RunAll | service/src/database/migrations/1680300000000-ChatMigration.ts:16-119 | A sequence of awaited calls has the effect of `Run`: in order, stopping at the first throw. |
| Schema.RunFrame | service/src/database/migrations/1680300000000-ChatMigration.ts:124-165 | Calls on one table leave every other table unchanged. |
| Schema.RunAppend | service/src/database/migrations/1680300000000-ChatMigration.ts:124-165 | Running two call lists in turn is running their concatenation. |
| Schema.RunDropsOnlyTarget | service/src/database/migrations/1680300000000-ChatMigration.ts:156-162 | Calls on one table that pass and end with its drop leave the store minus that table. |
| Schema.RunCreateWith | service/src/database/migrations/1680300000000-ChatMigration.ts:16-119 | Creating a fresh table with distinct column and index names, then its indices and keys, passes. The table then holds exactly those. |
| Schema.RunTeardown | service/src/database/migrations/1680300000000-ChatMigration.ts:132-162 | Dropping keys and indices a table has, then the table, passes and removes only that table. |
| Schema.RunDropIndices | service/src/database/migrations/1680300000000-ChatMigration.ts:156-159 | Dropping present, distinct indices passes and creates none. |
| Config.ConfigStore.constructor | service/src/config/config.ts:74 | The initial record is the defaults. |
| Config.ConfigStore.SetConfig | service/src/config/config.ts:76-80 | After `setConfig(n)` each key of `n` holds `n`'s value and every other key holds the default. |
| Config.DefaultMappingIsIdentity | service/src/config/user.config.ts:23-30 | The default field mapping sends each abstract field to its own column name. |
| ConfigServer.ServerConfigStore.constructor | service/src/config/config.server.ts:102 | The initial record is the defaults. |
| ConfigServer.ServerConfigStore.SetConfig | service/src/config/config.server.ts:104-125 | The record becomes defaults merged with `n`. `User.user_entity` becomes the generated class under a truthy `n.User.field_mapping`, else `DefaultUser` on an object `User`. A nullish or primitive `User` gives the TypeError. |
| ConfigServer.ServerConfigStore.SetConfigVariable | service/src/config/config.server.ts:127-131 | Only `key` changes; every other key keeps its current value. |
| ConfigServer.DefaultSpecsAreSafe | service/src/config/config.server.ts:85-98 | Every default mapping spec has a default or is nullable. |
| ConfigServer.SetConfigMergesOverDefaults | service/src/config/config.server.ts:108 | For any defaults record, after `setConfig(n)` every key other than `User` holds `n`'s value if present, else the default. Earlier settings are discarded. |
| ConfigServer.SetConfigUserEntity | service/src/config/config.server.ts:112-124 | For any defaults record: with a truthy `n.User.field_mapping`, `User` is `n.User` with the generated class as `user_entity`. Otherwise an object `User` gets `DefaultUser`. |
| ConfigServer.SetConfigWithoutUserKeepsDefaultUser | service/src/config/config.server.ts:112-124 | Without a `User` key, `User` stays the default object. |
| ConfigServer.SetConfigThrows | service/src/config/config.server.ts:120-123 | For any defaults record, `setConfig` throws exactly when the merged `User` is nullish or primitive. The record is replaced by the merge all the same. |
| ConfigServer.IsDefaultAfterSetConfig | service/src/config/config.server.ts:158-160 | Right after `setConfig(n)`, `isDefault(k)` holds for every key not in `n`. |
| ConfigServer.IsDefaultIsIdentity | service/src/config/config.server.ts:158-160 | For an object passed under a key other than `User`, `isDefault` holds iff it has the default object's identity. Equal contents are not enough. |
| JsValue.ParseRecordValue | service/src/config/config.server.ts:145-156 | Each case of `getParsedConfigVariable`: a string's parse, or a fresh `{}` when the parse throws; a falsy non-string gives `{}`; any other value is returned as is. |
| JsValue.MergeRecords | service/src/config/config.server.ts:108 | `{...a, ...b}` has the keys of both, `b`'s values where given, `a`'s elsewhere. |
| DataSource.PromptAcceptsExactly | service/src/database/dataSource.ts:90 | The prompt approves exactly `y` and `yes` in any mix of cases. |
| DataSource.PromptExamples | service/src/database/dataSource.ts:90 | `Y`, `YES` and `Yes` approve. |
| DataSource.PromptDeclineExamples | service/src/database/dataSource.ts:90 | The empty string, `n` and `yes ` decline. |
| DataSource.DefaultTargetIsSqliteFile | service/src/database/dataSource.ts:18 | With the defaults the target is the SQLite file `../service/chatdb.sqlite`. |
| DataSource.SeedColumnsDistinct | service/src/database/dataSource.ts:62-69 | The seed table's columns are `id`, `username`, `random_id`, `description`, with distinct names. |
| DataSource.CreateUsersTable | service/src/database/dataSource.ts:54-78 | On a non-SQLite database the `sqlite_master` query fails with the store unchanged. On SQLite: the seed table with one row when `users` is absent, and no change when it exists. |
| DataSource.InitDatasource | service/src/database/dataSource.ts:15-52 | The database is `DB_PATH` when `DB_TYPE` is `sqlite`, else `DB_NAME`. It rejects exactly when `DB_TYPE` is not `sqlite`, with the store unchanged. Otherwise the seed table is created if needed. |
| JsString.ToLowerAscii | service/src/database/dataSource.ts:90 | Lower-casing keeps the length and maps exactly A-Z to a-z. |
| BaseUser.UserEntity.Normalize | service/src/entities/BaseUser.ts:19-32 | It throws, writing nothing, when `User` or its `field_mapping` is nullish. Otherwise the fields become the three sequential assignments. |
| BaseUser.DefaultKeysAreOwnNames | service/src/config/user.config.ts:25-29 | The fallback key of each abstract field is its own name. |
| BaseUser.NullishEntryFallsBack | service/src/entities/BaseUser.ts:24-26 | A null or undefined mapping entry falls back to the field's own column name. |
| BaseUser.StringEntryIsKey | service/src/entities/BaseUser.ts:24-26 | A string entry is used as the key itself. |
| BaseUser.KeysForFails | service/src/entities/BaseUser.ts:21-26 | Reading the keys fails exactly when `User` or `User.field_mapping` is nullish. |
| BaseUser.DefaultConfigKeys | service/src/entities/BaseUser.ts:21-26 | Under the default configuration the keys are `full_name`, `avatar`, `bio`. |
| BaseUser.NormalizedReads | service/src/entities/BaseUser.ts:29-31 | `full_name` gets the pre-call value under its key. `avatar` and `bio` read the object after the earlier writes. |
| BaseUser.AvatarSeesNewFullName | service/src/entities/BaseUser.ts:29-31 | Concretely, `avatar` mapped to `full_name` takes the value just copied into `full_name`. |
| BaseUser.NormalizedKeepsOthers | service/src/entities/BaseUser.ts:29-31 | Only `full_name`, `avatar` and `bio` are written; every other property is unchanged. |
| BaseUser.IdentityMappingNoOp | service/src/entities/BaseUser.ts:24-31 | With the identity mapping every property reads as before. When all three exist, the object is unchanged. |
| BaseUser.NormalizeIdempotent | service/src/entities/BaseUser.ts:29-31 | When each key is its own field or outside the three, normalising twice equals normalising once. |
| BaseUser.CrossMappingNotIdempotent | service/src/entities/BaseUser.ts:29-31 | Without that condition, idempotence fails on a concrete cross mapping. |
| CustomUser.CustomUser.SetFullName | service/src/entities/CustomUser.ts:29-31 | Setting `full_name` writes `username`. Afterwards `full_name` and `bio` read the value; `id`, `avatar` and `description` are unchanged. |
| CustomUser.CustomUser.SetBio | service/src/entities/CustomUser.ts:38-40 | Setting `bio` writes `username`, so `full_name` also reads the value. The other columns are unchanged. |
| CustomUser.CustomUser.SetAvatar | service/src/entities/CustomUser.ts:18-19 | `avatar` is a plain column: set then read gives the value, and nothing else changes. |
| CustomUser.BioIsFullName | service/src/entities/CustomUser.ts:25-36 | `bio` and `full_name` always read the same value. |
| AuthMiddleware.Authenticate | service/src/auth/authMiddleware.ts:12-79 | The step-by-step handler takes the decision function's result. `req.user` is set exactly when the next handler runs with a user. |
| AuthMiddleware.ResolveToken | service/src/auth/authMiddleware.ts:33-43 | The token is the header's when truthy, else the cookie's. A resolved token is never empty. |
| AuthMiddleware.BearerSplits | service/src/auth/authMiddleware.ts:36-37 | A `Bearer ` header always has a second space-separated field. |
| AuthMiddleware.OnlyLoginSkips | service/src/auth/authMiddleware.ts:15-17 | `next()` runs without authentication exactly on `/login`. |
| AuthMiddleware.ChangedHostTrustsBody | service/src/auth/authMiddleware.ts:20-31 | With `HOST` changed, a truthy body `user` becomes the user; otherwise the response is 500. |
| AuthMiddleware.DefaultHostChecksTokens | service/src/config/config.ts:63 | The default `HOST` is `0.0.0.0`, so the token path is taken. |
| AuthMiddleware.BearerTokenIsSecondField | service/src/auth/authMiddleware.ts:36-38 | For `Bearer <t>` with a space-free `t`, the token is `t`. |
| AuthMiddleware.OtherHeadersGiveNoToken | service/src/auth/authMiddleware.ts:36-38 | A header without the `Bearer ` prefix gives no token. |
| AuthMiddleware.CookieOnlyWithoutHeaderToken | service/src/auth/authMiddleware.ts:41-43 | The cookie decides only when the header gave no truthy token. |
| AuthMiddleware.NoTokenIs401 | service/src/auth/authMiddleware.ts:45-47 | No token gives 401, and the next handler is not called. |
| AuthMiddleware.IsJWTIffTwoDots | service/src/auth/authMiddleware.ts:81-83 | `isJWT` holds iff the token has exactly two dots, i.e. three parts. |
| AuthMiddleware.JwtBranch | service/src/auth/authMiddleware.ts:49-67 | See the JWT-branch cases listed after the table. |
| AuthMiddleware.OpaqueBranch | service/src/auth/authMiddleware.ts:68-72 | A non-JWT token goes straight to the session lookup. A throwing lookup rejects the middleware. |
| AuthMiddleware.UserProvenance | service/src/auth/authMiddleware.ts:20-72 | Every user passed on is the body's `user`, a result of `verify` or a result of the lookup. |
| Helpers.FalsyOrNonStringIsEmpty | src/helpers.js:55-57 | A falsy or non-string input gives `''`. |
| Helpers.OtherStringsUnchanged | src/helpers.js:59-74 | A non-empty string without exactly three `:`-parts is returned unchanged. |
| Helpers.ThreePartsIffTwoColons | src/helpers.js:59-61 | Three parts iff exactly two colons. |
| Helpers.ThreePartResult | src/helpers.js:61-71 | See the three-part cases listed after the table. |
| Helpers.ShortenIdempotent | src/helpers.js:50-75 | Shortening an already shortened time changes nothing. |

`AuthMiddleware.JwtBranch` covers these cases:

- A verification failure gives 401.
- A payload with a single key and a truthy `id` is looked up by its `id`. A throwing lookup also gives 401.
- Any other payload is the user itself.

`Helpers.ThreePartResult` covers these cases:

- When the hours parse to 0, the result splits into the re-parsed minutes and the verbatim seconds. It has one colon.
- Otherwise it splits into the re-parsed hours and the verbatim minutes and seconds. It has two colons.

## Left out

- Console output, `readline` prompting and `process.env` reading are left to parameters: the typed answer, `USER_CONFIG`, `NODE_ENV` as `production`.
- Concurrency and asynchronous scheduling are not modelled. Every `await` is one sequential step.
- Floating point is not modelled. Numbers are integers, and `NaN` appears only as a failed `parseInt`.
- `shortenTimeString` does not model exponent notation for numerals of 1e21 and above, or precision loss above 2^53.
- TypeORM internals are not modelled: transactions, SQL text, and type checking of column options.
- TypeORM may update a fetched `Table` object in place after a drop. The three `down` methods decide everything on the list fetched before their first call, so a second `find` or the core-column test at `service/src/database/migrations/1680300000005-UserMigration.ts:106` is modelled on that list. A key that covers two columns is therefore dropped twice in the model.
- On a non-SQLite database the model fails at the `sqlite_master` query. The driver's own error, and any earlier failure of `initialize` for an unknown `DB_TYPE`, are not modelled.
- The `isDefault("User")` test at `service/src/database/migrations/1680300000005-UserMigration.ts:140-144` only chooses a log message and is left out.
- The row count is modelled directly, not as `parseInt(records[0].count, 10)` of the query result.
- `createForeignKey` does not check the referenced table or columns in the model. TypeORM defers that to the database.
- IDs of objects, arrays and functions share one space; the literals fix the default records' IDs.
- `Object.keys` order and own properties of strings and arrays are not modelled: `Get` answers `undefined` on non-objects, and `{ ...s }` of a string gives its index keys.
- `toLowerCase` is ASCII-only. Non-ASCII letters such as `Ｙ` are kept as they are.
- Cookie values are strings. `cookie-parser`'s JSON cookies (`j:` values) are not modelled.
- Where `HOST` is a number or boolean, `!=` compares against `NaN`, and a custom `toString` on an object `HOST` is not modelled.
- `config.user_entity` in the data-source options, `setCommonConfig`, the body of `generateCustomUserClass` (which is not part of this model) and `asyncLocalStorage.run` are foreign calls. The generated class is a parameter of `SetConfig`; the rest is not modelled.
- `jwt.verify` and `sessionLookup` are function parameters; the configured secret and algorithm are folded into `verify`.
- `setConfig` shares the default `User` object with the current record. Later in-place changes to it are not modelled beyond the one assignment of `user_entity`: the default User value's identity is kept, and its contents are assumed equal.
- `normalize` is modelled on plain own properties; accessor properties on a subclass are not modelled.
- The `normalized` field is declared and never written.

## Findings

| source | as written | input that shows it | evidently intended | confidence | as-written member | corrected member |
|---|---|---|---|---|---|---|
| service/src/database/migrations/1680300000005-UserMigration.ts:147 | The debug log reads `customMapping.User.field_mapping.full_name` without optional chaining. | `USER_CONFIG` unset: `customMapping` is `undefined`, so `buildUserTableColumns` throws a TypeError and the rest of `up` never runs. | Fall back to the default mapping, as lines 149-155 do with `?.`. | not executed | UserMigration.UpWithoutMappingThrows | UserMigration.IntendedUpCreatesDefaultTable |

The methods `BuildUserTableColumns` and `Up` follow the code as written. The intended builder `IntendedBuiltColumns` sits beside `BuiltColumns`. `UserMigration.DefaultColumns` proves its default list, and `UserMigration.IntendedUpCreatesDefaultTable` the table the intended `up` creates from it.
