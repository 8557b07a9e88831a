/**
  The server-side configuration store: one module-level record, reset by a
  shallow merge over the defaults, updated key by key, and read back.
 */
module ConfigServer {
  import opened Wrappers
  import opened JsValue

  // Identities of the objects the default record is built from.
  const CorsOriginId: nat := 201
  const UserFilterId: nat := 202
  const SessionLookupId: nat := 203
  const UserConfigId: nat := 204
  const DefaultUserClassId: nat := 205
  const FieldMappingId: nat := 206
  const FullNameSpecId: nat := 207
  const AvatarSpecId: nat := 208
  const BioSpecId: nat := 209

  /** The `DefaultUser` entity class. */
  function DefaultUserClass(): Value
  {
    Fn(DefaultUserClassId, "class DefaultUser extends BaseUser")
  }

  /** The column specification each abstract field maps to by default. */
  function DefaultFieldMapping(): Value
  {
    Obj(FieldMappingId, map[
      "full_name" := Obj(FullNameSpecId, map["name" := Str("full_name"), "default" := Str("'User'")]),
      "avatar" := Obj(AvatarSpecId, map["name" := Str("avatar"), "default" := Str("'https://example.com/default-avatar.png'")]),
      "bio" := Obj(BioSpecId, map["name" := Str("bio"), "isNullable" := Bool(true)])
    ])
  }

  /** `defaultConfig.User` */
  function DefaultUserConfig(): Value
  {
    Obj(UserConfigId, map["user_entity" := DefaultUserClass(), "field_mapping" := DefaultFieldMapping()])
  }

  /** `defaultConfig`; `production` is whether the service runs from its `dist` directory. */
  function DefaultConfig(production: bool): map<string, Value>
  {
    map[
      "production" := Bool(production),
      "PORT" := Num(4000),
      "SERVICE_URL" := Str("http://localhost:4000"),
      "UPLOAD_DIR" := Str("uploads"),
      "CORS_ORIGIN" := Arr(CorsOriginId, [Str("http://localhost:5174"), Str("http://localhost:5173")]),
      "user_filter" := Obj(UserFilterId, map[]),
      "DB_PATH" := Str("../service/chatdb.sqlite"),
      "DB_TYPE" := Str("sqlite"),
      "DB_NAME" := Str("chatdb"),
      "DB_HOST" := Str(""),
      "DB_PORT" := Undefined,
      "DB_USER" := Str(""),
      "DB_PASS" := Str(""),
      "synchronize" := Bool(false),
      "logging" := Bool(false),
      "HOST" := Str("0.0.0.0"),
      "TOKEN_NAME" := Str("chat_token"),
      "TOKEN_SECRET" := Str("chat-secret"),
      "JWT_ALGORITHM" := Str("HS256"),
      "sessionLookup" := Fn(SessionLookupId, "async (sessionId) => { throw new Error(\"sessionLookup function not implemented\"); }"),
      "User" := DefaultUserConfig()
    ]
  }

  /** `currentConfig.User.user_entity = …` on a `User` value that is not an object. */
  datatype ConfigError = UserEntityTypeError

  datatype ConfigUpdate = ConfigUpdate(config: map<string, Value>, outcome: Outcome<ConfigError>)

  /**
    `setConfig(newConfig)`: the record becomes `{ ...defaultConfig, ...newConfig }`;
    then `User.user_entity` of that record is set to the class generated from
    `newConfig.User.field_mapping` when that is truthy (`generatedEntity` stands
    for `generateCustomUserClass`'s result), else to `DefaultUser`. The
    assignment throws in strict mode on a nullish or primitive `User`, after the
    record has been replaced.
   */
  function SetConfigEffect(defaults: map<string, Value>, newConfig: map<string, Value>, generatedEntity: Value): ConfigUpdate
  {
    var merged := MergeRecords(defaults, newConfig);
    var user := Lookup(merged, "User");
    if Truthy(Get(Lookup(newConfig, "User"), "field_mapping")) then
      ConfigUpdate(merged["User" := SetProp(user, "user_entity", generatedEntity)], Pass)
    else if user.Obj? then
      ConfigUpdate(merged["User" := SetProp(user, "user_entity", DefaultUserClass())], Pass)
    else if user.Arr? || user.Fn? then
      ConfigUpdate(merged, Pass)
    else
      ConfigUpdate(merged, Fail(UserEntityTypeError))
  }

  class ServerConfigStore {
    const production: bool
    var current: map<string, Value>

    /** Module load: `currentConfig = { ...defaultConfig }`. */
    constructor (production: bool)
      ensures this.production == production
      ensures current == DefaultConfig(production)
    {
      this.production := production;
      current := DefaultConfig(production);
    }

    method SetConfig(newConfig: map<string, Value>, generatedEntity: Value) returns (outcome: Outcome<ConfigError>)
      modifies this`current
      ensures ConfigUpdate(current, outcome) == SetConfigEffect(DefaultConfig(production), newConfig, generatedEntity)
    {
      var update := SetConfigEffect(DefaultConfig(production), newConfig, generatedEntity);
      current := update.config;
      outcome := update.outcome;
    }

    /** `currentConfig = { ...currentConfig, [key]: value }` */
    method SetConfigVariable(key: string, value: Value)
      modifies this`current
      ensures current == old(current)[key := value]
      ensures forall k :: k != key ==> Lookup(current, k) == Lookup(old(current), k)
    {
      current := MergeRecords(current, map[key := value]);
    }

    function GetConfig(): map<string, Value>
      reads this
    {
      current
    }

    function GetDefaultConfig(): map<string, Value>
    {
      DefaultConfig(production)
    }

    function GetConfigVariable(key: string): Value
      reads this
    {
      Lookup(current, key)
    }

    function GetParsedConfigVariable(key: string, parse: string -> Option<Value>): ParsedRecord
      reads this
    {
      ParseRecordValue(Lookup(current, key), parse)
    }

    /** `currentConfig[key] === defaultConfig[key]` */
    predicate IsDefault(key: string)
      reads this
    {
      StrictEquals(Lookup(current, key), Lookup(DefaultConfig(production), key))
    }
  }

  // ----- properties ---------------------------------------------------------

  /** Every default column specification can be added to a populated table: it has a default or is nullable. */
  lemma DefaultSpecsAreSafe(key: string)
    requires key in ["full_name", "avatar", "bio"]
    ensures var spec := Get(DefaultFieldMapping(), key);
      Get(spec, "default") != Undefined || Get(spec, "isNullable") == Bool(true)
  {
  }

  /**
    After `setConfig(newConfig)` every key other than `User` holds `newConfig`'s
    value if it has one and the default otherwise: nothing set before survives.
   */
  lemma SetConfigMergesOverDefaults(defaults: map<string, Value>, newConfig: map<string, Value>, generatedEntity: Value, key: string)
    requires key != "User"
    ensures var r := SetConfigEffect(defaults, newConfig, generatedEntity).config;
      Lookup(r, key) == if key in newConfig then newConfig[key] else Lookup(defaults, key)
  {
  }

  /**
    `User.user_entity` after `setConfig`: the generated class when
    `newConfig.User.field_mapping` is truthy (and then `User` is otherwise
    `newConfig.User`), else `DefaultUser` whenever `User` is an object.
   */
  lemma SetConfigUserEntity(defaults: map<string, Value>, newConfig: map<string, Value>, generatedEntity: Value)
    ensures var r := SetConfigEffect(defaults, newConfig, generatedEntity);
      var user := Lookup(r.config, "User");
      if Truthy(Get(Lookup(newConfig, "User"), "field_mapping")) then
        r.outcome.Pass? && user.Obj? && user.id == newConfig["User"].id &&
        user.props == newConfig["User"].props["user_entity" := generatedEntity] &&
        Get(user, "user_entity") == generatedEntity
      else
        user.Obj? ==> Get(user, "user_entity") == DefaultUserClass()
  {
    if Truthy(Get(Lookup(newConfig, "User"), "field_mapping")) {
      assert Lookup(newConfig, "User").Obj?;
    }
  }

  /** The default record's `User` is `defaultUserConfig`. */
  lemma DefaultConfigUser(production: bool)
    ensures "User" in DefaultConfig(production) && DefaultConfig(production)["User"] == DefaultUserConfig()
  {
  }

  /** A `User` that already carries `DefaultUser` as its entity survives a `setConfig` that leaves `User` out. */
  lemma DefaultUserSurvives(defaults: map<string, Value>, newConfig: map<string, Value>, generatedEntity: Value)
    requires "User" !in newConfig
    requires "User" in defaults && defaults["User"] == DefaultUserConfig()
    ensures var r := SetConfigEffect(defaults, newConfig, generatedEntity);
      r.outcome == Pass && r.config["User"] == DefaultUserConfig()
  {
    var user := DefaultUserConfig();
    assert SetProp(user, "user_entity", DefaultUserClass()) == user;
  }

  /**
    Without a `User` key the record's `User` is the default object itself,
    whose entity is already `DefaultUser`: the assignment changes nothing.
   */
  lemma SetConfigWithoutUserKeepsDefaultUser(production: bool, newConfig: map<string, Value>, generatedEntity: Value)
    requires "User" !in newConfig
    ensures var r := SetConfigEffect(DefaultConfig(production), newConfig, generatedEntity);
      r.outcome == Pass && r.config["User"] == DefaultUserConfig()
  {
    DefaultConfigUser(production);
    DefaultUserSurvives(DefaultConfig(production), newConfig, generatedEntity);
  }

  /** `setConfig` throws exactly when the merged `User` is nullish or primitive; the record is replaced all the same. */
  lemma SetConfigThrows(defaults: map<string, Value>, newConfig: map<string, Value>, generatedEntity: Value)
    ensures var r := SetConfigEffect(defaults, newConfig, generatedEntity);
      var user := Lookup(MergeRecords(defaults, newConfig), "User");
      && (r.outcome.Fail? <==> !user.IsReference())
      && (r.outcome.Fail? ==> r.config == MergeRecords(defaults, newConfig))
  {
    if Truthy(Get(Lookup(newConfig, "User"), "field_mapping")) {
      assert Lookup(newConfig, "User").Obj?;
    }
  }

  /** Right after `setConfig(newConfig)`, `isDefault(key)` holds for every key `newConfig` leaves out. */
  lemma IsDefaultAfterSetConfig(production: bool, newConfig: map<string, Value>, generatedEntity: Value, key: string)
    requires key !in newConfig
    ensures var r := SetConfigEffect(DefaultConfig(production), newConfig, generatedEntity).config;
      StrictEquals(Lookup(r, key), Lookup(DefaultConfig(production), key))
  {
    if key == "User" {
      SetConfigWithoutUserKeepsDefaultUser(production, newConfig, generatedEntity);
    } else {
      SetConfigMergesOverDefaults(DefaultConfig(production), newConfig, generatedEntity, key);
    }
    StrictEqualsReflexive(Lookup(DefaultConfig(production), key));
  }

  /**
    An object passed for a key is never `isDefault`, even when its contents
    equal the default's, unless it is the default object itself.
   */
  lemma IsDefaultIsIdentity(production: bool, newConfig: map<string, Value>, generatedEntity: Value, key: string)
    requires key != "User" && key in newConfig && newConfig[key].Obj?
    requires Lookup(DefaultConfig(production), key).IsReference()
    ensures var r := SetConfigEffect(DefaultConfig(production), newConfig, generatedEntity).config;
      StrictEquals(Lookup(r, key), Lookup(DefaultConfig(production), key)) <==>
      newConfig[key].id == Lookup(DefaultConfig(production), key).id
  {
    SetConfigMergesOverDefaults(DefaultConfig(production), newConfig, generatedEntity, key);
  }
}
