/**
  JavaScript values as the core handles them: configuration records, parsed
  JSON, column option objects, JWT payloads and entity rows.

  Numbers are integral (floating point and NaN as a value are not modelled).
  Objects, arrays and functions are references: each carries the identity
  `id` of the object it denotes, so `===` on them compares identities while
  on primitives it compares values.
 */
module JsValue {
  import opened Wrappers
  import JsString

  datatype Value =
    | Undefined
    | Null
    | Bool(b: bool)
    | Num(n: int)
    | Str(s: string)
    | Obj(id: nat, props: map<string, Value>)
    | Arr(id: nat, elems: seq<Value>)
    | Fn(id: nat, source: string)
  {
    predicate IsReference() { Obj? || Arr? || Fn? }
  }

  /** `!!v` */
  predicate Truthy(v: Value)
  {
    match v
    case Undefined => false
    case Null => false
    case Bool(b) => b
    case Num(n) => n != 0
    case Str(s) => s != ""
    case _ => true
  }

  /** `v === undefined || v === null`, the test behind `??` and `?.`. */
  predicate IsNullish(v: Value) { v.Undefined? || v.Null? }

  /** `a === b`: identity on references, equality of value on primitives. */
  predicate StrictEquals(a: Value, b: Value)
  {
    if a.IsReference() && b.IsReference() then a.id == b.id else a == b
  }

  /** Reading a property of a record: an absent key reads as `undefined`. */
  function Lookup(record: map<string, Value>, key: string): Value
  {
    if key in record then record[key] else Undefined
  }

  /**
    `v[key]` for a non-nullish `v` (and `v?.[key]` for any `v`): an own property
    of an object; strings, numbers, booleans, arrays and functions answer
    `undefined` for every key the core reads.
   */
  function Get(v: Value, key: string): Value
  {
    if v.Obj? then Lookup(v.props, key) else Undefined
  }

  /** `list.includes(v)` (SameValueZero, which is `===` without NaN). */
  predicate Includes(list: seq<Value>, v: Value)
  {
    exists i :: 0 <= i < |list| && StrictEquals(list[i], v)
  }

  /** `{ ...a, ...b }`: every own property of `b`, then those of `a` it does not override. */
  function MergeRecords(a: map<string, Value>, b: map<string, Value>): (r: map<string, Value>)
    ensures r.Keys == a.Keys + b.Keys
    ensures forall k :: k in b ==> r[k] == b[k]
    ensures forall k :: k in a && k !in b ==> r[k] == a[k]
  {
    a + b
  }

  /** The own enumerable properties that `{ ...v }` copies. */
  function Spread(v: Value): map<string, Value>
  {
    match v
    case Obj(_, props) => props
    case Arr(_, elems) => IndexKeyed(elems)
    case Str(s) => IndexKeyed(seq(|s|, i requires 0 <= i < |s| => Str([s[i]])))
    case _ => map[]
  }

  /** The index properties "0", "1", ... of a string or array. */
  function IndexKeyed(elems: seq<Value>): (m: map<string, Value>)
    ensures forall k :: k in m ==> |k| >= 1 && JsString.AllDigits(k)
  {
    if |elems| == 0 then map[]
    else IndexKeyed(elems[..|elems| - 1])[JsString.NatToString(|elems| - 1) := elems[|elems| - 1]]
  }

  /** `o.key = x` on an object. */
  function SetProp(v: Value, key: string, x: Value): (r: Value)
    requires v.Obj?
    ensures r.Obj? && r.id == v.id && r.props == v.props[key := x]
  {
    Obj(v.id, v.props[key := x])
  }

  /**
    The property key `o[v]` uses for `v` (`ToPropertyKey`, i.e. `String(v)`).
    Objects render as `[object Object]` (an own `toString` is not modelled),
    arrays as the comma-joined keys of their elements with nullish elements empty,
    functions as their source text.
   */
  function ToPropertyKey(v: Value): string
  {
    match v
    case Undefined => "undefined"
    case Null => "null"
    case Bool(b) => if b then "true" else "false"
    case Num(n) => JsString.IntToString(n)
    case Str(s) => s
    case Obj(_, _) => "[object Object]"
    case Fn(_, source) => source
    case Arr(_, elems) => JoinElements(elems)
  }

  function JoinElements(elems: seq<Value>): string
    decreases elems, 0
  {
    if |elems| == 0 then ""
    else
      var first := if IsNullish(elems[0]) then "" else ToPropertyKey(elems[0]);
      if |elems| == 1 then first else first + "," + JoinElements(elems[1..])
  }

  /** Result of `getParsedConfigVariable`: an existing value, or a newly allocated `{}`. */
  datatype ParsedRecord = Existing(value: Value) | FreshEmpty

  /**
    `typeof value === 'string' ? (try JSON.parse(value) catch {}) : (value || {})`.
    `parse` stands for `JSON.parse`; `None` means it threw.
   */
  function ParseRecordValue(value: Value, parse: string -> Option<Value>): (r: ParsedRecord)
    ensures value.Str? && parse(value.s).None? ==> r == FreshEmpty
    ensures value.Str? && parse(value.s).Some? ==> r == Existing(parse(value.s).value)
    ensures !value.Str? && !Truthy(value) ==> r == FreshEmpty
    ensures !value.Str? && Truthy(value) ==> r == Existing(value)
  {
    if value.Str? then
      match parse(value.s)
      case None => FreshEmpty
      case Some(parsed) => Existing(parsed)
    else if Truthy(value) then Existing(value)
    else FreshEmpty
  }

  /** `===` is reflexive without NaN. */
  lemma StrictEqualsReflexive(v: Value)
    ensures StrictEquals(v, v)
  {
  }

  /** On strings `includes` is plain membership. */
  lemma IncludesStr(list: seq<Value>, s: string)
    ensures Includes(list, Str(s)) <==> Str(s) in list
  {
    if Str(s) in list {
      var i :| 0 <= i < |list| && list[i] == Str(s);
      assert StrictEquals(list[i], Str(s));
    }
  }

  /** `===` is an equivalence: symmetric and transitive. */
  lemma StrictEqualsEquivalence(a: Value, b: Value, c: Value)
    ensures StrictEquals(a, b) ==> StrictEquals(b, a)
    ensures StrictEquals(a, b) && StrictEquals(b, c) ==> StrictEquals(a, c)
  {
  }

  /** `includes` on a concatenation holds exactly when it holds on one of the parts. */
  lemma IncludesConcat(a: seq<Value>, b: seq<Value>, v: Value)
    ensures Includes(a + b, v) <==> Includes(a, v) || Includes(b, v)
  {
    if Includes(a + b, v) {
      var i :| 0 <= i < |a + b| && StrictEquals((a + b)[i], v);
      if i >= |a| {
        assert StrictEquals(b[i - |a|], v);
      }
    }
    if Includes(a, v) {
      var i :| 0 <= i < |a| && StrictEquals(a[i], v);
      assert (a + b)[i] == a[i];
    }
    if Includes(b, v) {
      var i :| 0 <= i < |b| && StrictEquals(b[i], v);
      assert (a + b)[|a| + i] == b[i];
    }
  }

  /** Whether a list includes a value does not tell `===`-equal values apart. */
  lemma IncludesRespects(list: seq<Value>, a: Value, b: Value)
    requires StrictEquals(a, b)
    ensures Includes(list, a) <==> Includes(list, b)
  {
    if Includes(list, a) {
      var i :| 0 <= i < |list| && StrictEquals(list[i], a);
      StrictEqualsEquivalence(list[i], a, b);
    }
    if Includes(list, b) {
      var i :| 0 <= i < |list| && StrictEquals(list[i], b);
      StrictEqualsEquivalence(a, b, b);
      StrictEqualsEquivalence(list[i], b, a);
    }
  }
}
