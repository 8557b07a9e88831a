/**
  The shared configuration store read by the entities and the
  authentication middleware: a module-level record reset by a shallow merge
  over the defaults.
 */
module Config {
  import opened Wrappers
  import opened JsValue

  const UserFilterId: nat := 101
  const SessionLookupId: nat := 102
  const DefaultUserConfigId: nat := 103
  const UserEntityThunkId: nat := 104
  const FieldMappingId: nat := 105

  /** `defaultUserConfig`: each abstract field maps to the column of its own name. */
  function DefaultUserConfig(): Value
  {
    Obj(DefaultUserConfigId, map[
      "user_entity" := Fn(UserEntityThunkId, "() => require('../entities/User').DefaultUser"),
      "field_mapping" := Obj(FieldMappingId, map[
        "full_name" := Str("full_name"),
        "avatar" := Str("avatar"),
        "bio" := Str("bio")
      ])
    ])
  }

  /** `defaultConfig`; `production` is `process.env.NODE_ENV === 'production'`. */
  function DefaultConfig(production: bool): map<string, Value>
  {
    map[
      "production" := Bool(production),
      "PORT" := Num(4000),
      "SERVICE_URL" := Str("http://localhost:4000"),
      "UPLOAD_DIR" := Str("uploads"),
      "user_filter" := Obj(UserFilterId, map[]),
      "DB_TYPE" := Str("sqlite"),
      "DB_NAME" := Str("chatdb"),
      "DB_HOST" := Str(""),
      "DB_PORT" := Undefined,
      "DB_USER" := Str(""),
      "DB_PASS" := Str(""),
      "synchronize" := Bool(false),
      "HOST" := Str("0.0.0.0"),
      "TOKEN_NAME" := Str("chat_token"),
      "TOKEN_SECRET" := Str("chat-secret"),
      "JWT_ALGORITHM" := Str("HS256"),
      "sessionLookup" := Fn(SessionLookupId, "async (sessionId) => { throw new Error(\"sessionLookup function not implemented\"); }"),
      "User" := DefaultUserConfig()
    ]
  }

  class ConfigStore {
    const production: bool
    var current: map<string, Value>

    /** Module load: `currentConfig = { ...defaultConfig }`. */
    constructor (production: bool)
      ensures this.production == production
      ensures current == DefaultConfig(production)
    {
      this.production := production;
      current := DefaultConfig(production);
    }

    /** `currentConfig = { ...defaultConfig, ...newConfig }`: what was set before is forgotten. */
    method SetConfig(newConfig: map<string, Value>)
      modifies this`current
      ensures current == MergeRecords(DefaultConfig(production), newConfig)
      ensures forall k :: k in newConfig ==> Lookup(current, k) == newConfig[k]
      ensures forall k :: k !in newConfig ==> Lookup(current, k) == Lookup(DefaultConfig(production), k)
    {
      current := MergeRecords(DefaultConfig(production), newConfig);
    }

    function GetConfig(): map<string, Value>
      reads this
    {
      current
    }

    function GetConfigVariable(key: string): Value
      reads this
    {
      Lookup(current, key)
    }

    function GetParsedConfigVariable(key: string, parse: string -> Option<Value>): ParsedRecord
      reads this
    {
      ParseRecordValue(Lookup(current, key), parse)
    }
  }

  /** The abstract fields of the default mapping name their own columns. */
  lemma DefaultMappingIsIdentity(production: bool, key: string)
    requires key in ["full_name", "avatar", "bio"]
    ensures Get(Get(Lookup(DefaultConfig(production), "User"), "field_mapping"), key) == Str(key)
  {
  }
}
