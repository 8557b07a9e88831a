/**
  `BaseUser.normalize`, run after an entity is loaded: it copies the columns
  the configured field mapping names into the abstract fields `full_name`,
  `avatar` and `bio`, one assignment after the other.
 */
module BaseUser {
  import opened Wrappers
  import opened JsValue
  import Config

  /** The abstract fields, in the order `normalize` writes them. */
  const AbstractFields: seq<string> := ["full_name", "avatar", "bio"]

  /** The property keys `normalize` reads for the three fields. */
  datatype MappingKeys = MappingKeys(fullName: string, avatar: string, bio: string)

  /** Reading `field_mapping` of a nullish `User`, or a field of a nullish mapping. */
  datatype NormalizeError = MappingTypeError

  /** `defaultUserConfig.field_mapping[field]`. */
  function DefaultKey(field: string): Value
  {
    Get(Get(Config.DefaultUserConfig(), "field_mapping"), field)
  }

  /** `mapping[field] ?? defaultUserConfig.field_mapping[field]`, as a property key. */
  function FieldKey(mapping: Value, field: string): string
  {
    var k := Get(mapping, field);
    ToPropertyKey(if IsNullish(k) then DefaultKey(field) else k)
  }

  /**
    The keys `normalize` uses under the configuration `config`; `None` when
    `getConfig().User.field_mapping` or a field of it cannot be read.
   */
  function KeysFor(config: map<string, Value>): (r: Option<MappingKeys>)
  {
    var user := Lookup(config, "User");
    if IsNullish(user) then None
    else
      var mapping := Get(user, "field_mapping");
      if IsNullish(mapping) then None
      else Some(MappingKeys(FieldKey(mapping, "full_name"), FieldKey(mapping, "avatar"), FieldKey(mapping, "bio")))
  }

  /** `this[field] = this[key]` on the entity's properties. */
  function Assign(fields: map<string, Value>, field: string, key: string): map<string, Value>
  {
    fields[field := Lookup(fields, key)]
  }

  /** The three assignments of `normalize`, in their order. */
  function Normalized(fields: map<string, Value>, keys: MappingKeys): map<string, Value>
  {
    Assign(Assign(Assign(fields, "full_name", keys.fullName), "avatar", keys.avatar), "bio", keys.bio)
  }

  /** A loaded user row; `fields` are the entity's own properties. */
  class UserEntity {
    var fields: map<string, Value>

    constructor (fields: map<string, Value>)
      ensures this.fields == fields
    {
      this.fields := fields;
    }

    /** `normalize()`: a mapping that cannot be read throws before any field is written. */
    method Normalize(config: Config.ConfigStore) returns (r: Outcome<NormalizeError>)
      modifies this
      ensures r.Pass? <==> KeysFor(config.current).Some?
      ensures r.Pass? ==> fields == Normalized(old(fields), KeysFor(config.current).value)
      ensures r.Fail? ==> fields == old(fields)
    {
      var keys := KeysFor(config.GetConfig());
      if keys.None? {
        return Fail(MappingTypeError);
      }
      var k := keys.value;
      fields := fields["full_name" := Lookup(fields, k.fullName)];
      fields := fields["avatar" := Lookup(fields, k.avatar)];
      fields := fields["bio" := Lookup(fields, k.bio)];
      r := Pass;
    }
  }

  // ----- properties -----------------------------------------------------------

  /** The default mapping sends each abstract field to the column of its own name. */
  lemma DefaultKeysAreOwnNames(field: string)
    requires field in AbstractFields
    ensures ToPropertyKey(DefaultKey(field)) == field
  {
    Config.DefaultMappingIsIdentity(false, field);
  }

  /** A nullish mapping entry falls back to the field's own column name. */
  lemma NullishEntryFallsBack(mapping: Value, field: string)
    requires field in AbstractFields && IsNullish(Get(mapping, field))
    ensures FieldKey(mapping, field) == field
  {
    DefaultKeysAreOwnNames(field);
  }

  /** A string entry names the column directly. */
  lemma StringEntryIsKey(mapping: Value, field: string, column: string)
    requires Get(mapping, field) == Str(column)
    ensures FieldKey(mapping, field) == column
  {
  }

  /** The configuration's `User` or its `field_mapping` being nullish is exactly the error case. */
  lemma KeysForFails(config: map<string, Value>)
    ensures KeysFor(config).None? <==>
      IsNullish(Lookup(config, "User")) || IsNullish(Get(Lookup(config, "User"), "field_mapping"))
  {
  }

  /** The default configuration maps every field to itself. */
  lemma DefaultConfigKeys(production: bool)
    ensures KeysFor(Config.DefaultConfig(production)) == Some(MappingKeys("full_name", "avatar", "bio"))
  {
    Config.DefaultMappingIsIdentity(production, "full_name");
    Config.DefaultMappingIsIdentity(production, "avatar");
    Config.DefaultMappingIsIdentity(production, "bio");
  }

  /**
    What each field holds after `normalize`: `full_name` the pre-call value under its
    key; `avatar` and `bio` read the object after the earlier writes, so a key naming
    an already normalised field sees the new value.
   */
  lemma NormalizedReads(fields: map<string, Value>, keys: MappingKeys)
    ensures var n := Normalized(fields, keys);
      var fullName := Lookup(fields, keys.fullName);
      var avatar := if keys.avatar == "full_name" then fullName else Lookup(fields, keys.avatar);
      Lookup(n, "full_name") == fullName &&
      Lookup(n, "avatar") == avatar &&
      Lookup(n, "bio") == (if keys.bio == "full_name" then fullName
                           else if keys.bio == "avatar" then avatar
                           else Lookup(fields, keys.bio))
  {
  }

  /** A concrete aliasing: `avatar` mapped to `full_name` sees the value just copied there. */
  lemma AvatarSeesNewFullName(fields: map<string, Value>)
    requires fields == map["full_name" := Str("old"), "username" := Str("ann")]
    ensures var n := Normalized(fields, MappingKeys("username", "full_name", "bio"));
      Lookup(n, "avatar") == Str("ann") && Lookup(n, "bio") == Undefined
  {
    NormalizedReads(fields, MappingKeys("username", "full_name", "bio"));
  }

  /** Only the three abstract fields are written; every other property keeps its value. */
  lemma NormalizedKeepsOthers(fields: map<string, Value>, keys: MappingKeys)
    ensures var n := Normalized(fields, keys);
      n.Keys == fields.Keys + {"full_name", "avatar", "bio"} &&
      forall k :: k in fields && k !in AbstractFields ==> n[k] == fields[k]
  {
  }

  /** With the identity mapping `normalize` leaves every field reading as before. */
  lemma IdentityMappingNoOp(fields: map<string, Value>)
    ensures forall k :: Lookup(Normalized(fields, MappingKeys("full_name", "avatar", "bio")), k) == Lookup(fields, k)
    ensures "full_name" in fields && "avatar" in fields && "bio" in fields ==>
      Normalized(fields, MappingKeys("full_name", "avatar", "bio")) == fields
  {
  }

  /** A key that is its own field's name or names none of the three fields. */
  predicate SelfOrOutside(key: string, field: string)
  {
    key == field || key !in AbstractFields
  }

  /** When no key names another abstract field, normalising twice is normalising once. */
  lemma NormalizeIdempotent(fields: map<string, Value>, keys: MappingKeys)
    requires SelfOrOutside(keys.fullName, "full_name")
    requires SelfOrOutside(keys.avatar, "avatar")
    requires SelfOrOutside(keys.bio, "bio")
    ensures Normalized(Normalized(fields, keys), keys) == Normalized(fields, keys)
  {
    var n := Normalized(fields, keys);
    NormalizedReads(fields, keys);
    NormalizedReads(n, keys);
    NormalizedKeepsOthers(fields, keys);
    NormalizedKeepsOthers(n, keys);
    assert Lookup(n, keys.fullName) == Lookup(fields, keys.fullName);
    assert Lookup(n, keys.avatar) == Lookup(fields, keys.avatar);
    assert Lookup(n, keys.bio) == Lookup(fields, keys.bio);
  }

  /**
    Idempotence needs the side condition: with `full_name` mapped to `bio` and `bio` to
    `avatar`, a second run copies the already overwritten `bio` into `full_name`.
   */
  lemma CrossMappingNotIdempotent()
    ensures var fields := map["avatar" := Str("a"), "bio" := Str("b")];
      var keys := MappingKeys("bio", "avatar", "avatar");
      Normalized(Normalized(fields, keys), keys) != Normalized(fields, keys)
  {
    var fields := map["avatar" := Str("a"), "bio" := Str("b")];
    var keys := MappingKeys("bio", "avatar", "avatar");
    var once := Normalized(fields, keys);
    assert once["full_name"] == Str("b") && once["bio"] == Str("a");
    var twice := Normalized(once, keys);
    assert twice["full_name"] == Str("a");
  }
}
