/**
 * Decoded JSON values as the dashboard's JavaScript sees them after
 * `response.json()`, with the JavaScript operations the normalisers apply to
 * them: truthiness, `typeof`, property access `v[key]` and `Object.entries`.
 */
module JsonValue {
  import opened Wrappers
  import opened Text

  /**
   * A JSON value. Numbers are reals (JSON has no NaN or infinities). Object
   * members are listed in the order in which `Object.entries` enumerates the
   * JavaScript object. An object that JSON.parse produces has distinct keys
   * (`DistinctKeys`); the datatype does not enforce this, and on a repeated
   * key `MemberValue` reads the first member where JSON.parse keeps the last.
   */
  datatype Json =
    | JNull
    | JBool(truth: bool)
    | JNum(num: real)
    | JStr(str: string)
    | JArr(items: seq<Json>)
    | JObj(members: seq<(string, Json)>)

  /** The completion of a JavaScript expression that may throw a TypeError. */
  datatype Completion<+T> = Normal(value: T) | Threw

  /** `!!v`, where None stands for `undefined`. */
  predicate Truthy(v: Option<Json>) {
    match v
    case None => false
    case Some(JNull) => false
    case Some(JBool(b)) => b
    case Some(JNum(n)) => n != 0.0
    case Some(JStr(s)) => s != ""
    case Some(_) => true
  }

  /** `typeof v === 'object'`, which holds for null as well. */
  predicate IsObjectType(v: Json) {
    v.JNull? || v.JArr? || v.JObj?
  }

  /** `v && typeof v === 'object'`: an array or an object. */
  predicate IsNonNullObject(v: Json) {
    v.JArr? || v.JObj?
  }

  /**
   * `getValueType`: 'null' for null, 'array' for arrays, otherwise `typeof`.
   * The two copies in the source (one with an extra 'object' branch) agree on
   * every JSON value.
   */
  function TypeName(v: Json): (r: string)
    ensures r == "null" <==> v.JNull?
    ensures r == "array" <==> v.JArr?
    ensures r == "object" <==> v.JObj?
  {
    match v
    case JNull => "null"
    case JBool(_) => "boolean"
    case JNum(_) => "number"
    case JStr(_) => "string"
    case JArr(_) => "array"
    case JObj(_) => "object"
  }

  /** `a || b` where `b` is a defined value: `a` when it is truthy, otherwise `b`. */
  function Or(a: Option<Json>, b: Json): (r: Json)
    ensures Truthy(a) ==> Some(r) == a
    ensures !Truthy(a) ==> r == b
  {
    if Truthy(a) then a.value else b
  }

  /** The value of the member named `key`, if there is one. */
  function MemberValue(members: seq<(string, Json)>, key: string): (r: Option<Json>)
    ensures r.Some? <==> exists i :: 0 <= i < |members| && members[i].0 == key
    ensures r.Some? ==> exists i :: 0 <= i < |members| && members[i] == (key, r.value)
  {
    if |members| == 0 then None
    else if members[0].0 == key then Some(members[0].1)
    else
      var r := MemberValue(members[1..], key);
      assert forall i :: 1 <= i < |members| ==> members[i] == members[1..][i - 1];
      r
  }

  /** No two members share a key, as in every object JSON.parse produces. */
  predicate DistinctKeys(members: seq<(string, Json)>) {
    forall i, j :: 0 <= i < j < |members| ==> members[i].0 != members[j].0
  }

  /** With distinct keys the member read is the one member carrying the key. */
  lemma {:induction false} MemberValueOfDistinct(members: seq<(string, Json)>, i: nat)
    requires DistinctKeys(members) && i < |members|
    ensures MemberValue(members, members[i].0) == Some(members[i].1)
  {
    if i > 0 {
      assert members[0].0 != members[i].0;
      assert members[1..][i - 1] == members[i];
      MemberValueOfDistinct(members[1..], i - 1);
    }
  }

  /**
   * `v[key]` for a value that is not null (on null JavaScript throws).
   * Arrays and strings answer `length` and canonical indices; properties
   * inherited from prototypes are not modelled.
   */
  function Prop(v: Json, key: string): Option<Json>
    requires !v.JNull?
  {
    match v
    case JObj(members) => MemberValue(members, key)
    case JArr(items) =>
      if key == "length" then Some(JNum(|items| as real))
      else (
        match ParseIndex(key)
        case Some(i) => if i < |items| then Some(items[i]) else None
        case None => None)
    case JStr(s) =>
      if key == "length" then Some(JNum(|s| as real))
      else (
        match ParseIndex(key)
        case Some(i) => if i < |s| then Some(JStr([s[i]])) else None
        case None => None)
    case _ => None
  }

  /** `Object.entries(v)` for a value that is not null (on null JavaScript throws). */
  function Entries(v: Json): (r: seq<(string, Json)>)
    requires !v.JNull?
    ensures v.JObj? ==> r == v.members
    ensures v.JArr? ==> |r| == |v.items|
    ensures v.JArr? ==> forall i :: 0 <= i < |r| ==> r[i] == (NatToString(i), v.items[i])
    ensures v.JStr? ==> |r| == |v.str|
    ensures v.JStr? ==> forall i :: 0 <= i < |r| ==> r[i] == (NatToString(i), JStr([v.str[i]]))
    ensures v.JBool? || v.JNum? ==> r == []
  {
    match v
    case JObj(members) => members
    case JArr(items) => IndexedEntries(items, 0)
    case JStr(s) => IndexedEntries(CharStrings(s), 0)
    case _ => []
  }

  /** The one-character strings of `s`, in order. */
  function CharStrings(s: string): (r: seq<Json>)
    ensures |r| == |s|
    ensures forall i :: 0 <= i < |s| ==> r[i] == JStr([s[i]])
  {
    if s == [] then [] else [JStr([s[0]])] + CharStrings(s[1..])
  }

  /** The entries of an array: each element keyed by its decimal index, counting from `start`. */
  function IndexedEntries(items: seq<Json>, start: nat): (r: seq<(string, Json)>)
    ensures |r| == |items|
    ensures forall i :: 0 <= i < |items| ==> r[i] == (NatToString(start + i), items[i])
  {
    if items == [] then [] else [(NatToString(start), items[0])] + IndexedEntries(items[1..], start + 1)
  }

  /** `Object.keys(v)`. */
  function Keys(v: Json): (r: seq<string>)
    requires !v.JNull?
    ensures |r| == |Entries(v)|
    ensures forall i :: 0 <= i < |r| ==> r[i] == Entries(v)[i].0
  {
    var es := Entries(v);
    seq(|es|, i requires 0 <= i < |es| => es[i].0)
  }

  /**
   * Every key `Object.keys` lists can be read back with `v[key]`, and gives
   * the value `Object.entries` pairs it with (for objects, when the keys are
   * distinct, as in every parsed object).
   */
  lemma KeysReadable(v: Json, i: nat)
    requires !v.JNull? && i < |Keys(v)|
    ensures Prop(v, Keys(v)[i]) == Some(Entries(v)[i].1) || v.JObj?
    ensures v.JObj? && DistinctKeys(v.members) ==> Prop(v, Keys(v)[i]) == Some(Entries(v)[i].1)
    ensures Prop(v, Keys(v)[i]).Some?
  {
    match v
    case JObj(members) =>
      assert members[i].0 == Keys(v)[i];
      if DistinctKeys(members) {
        MemberValueOfDistinct(members, i);
      }
    case JArr(items) =>
      NatToStringParses(i);
      assert NatToString(i) != "length";
    case JStr(s) =>
      NatToStringParses(i);
      assert NatToString(i) != "length";
  }

  // ---------------------------------------------------------------------------
  // Dot-path resolution, shared by `getNestedValue` and `getValueByPath`

  /**
   * The loop of the path walkers: starting from `current`, reads each part in
   * turn, giving up with `undefined` at a null, undefined or non-object value.
   */
  function Walk(current: Option<Json>, parts: seq<string>): Option<Json>
    decreases |parts|
  {
    if parts == [] then current
    else if current.None? || current.value.JNull? then None
    else if !IsObjectType(current.value) then None
    else Walk(Prop(current.value, parts[0]), parts[1..])
  }

  /** The value at the dot-separated `path` under `root`, or `undefined`. */
  function NestedValue(root: Json, path: string): Option<Json> {
    if !Truthy(Some(root)) || !IsObjectType(root) then None
    else Walk(Some(root), Split(path, '.'))
  }

  /** Walking a concatenated path is walking the first part, then the rest. */
  lemma {:induction false} WalkAppend(current: Option<Json>, p: seq<string>, q: seq<string>)
    ensures Walk(current, p + q) == Walk(Walk(current, p), q)
    decreases |p|
  {
    if p == [] {
      assert p + q == q;
    } else if current.None? || current.value.JNull? || !IsObjectType(current.value) {
      if q != [] {
        assert Walk(current, p + q) == None;
      }
    } else {
      assert (p + q)[1..] == p[1..] + q;
      WalkAppend(Prop(current.value, p[0]), p[1..], q);
    }
  }

  /** Once a walk hits a non-object value, every longer path is undefined. */
  lemma {:induction false} WalkPastScalar(v: Json, parts: seq<string>)
    requires !IsNonNullObject(v) && parts != []
    ensures Walk(Some(v), parts) == None
  {
  }

  // ---------------------------------------------------------------------------
  // Field descriptors (`AvailableField`)

  /**
   * The `value` of a field descriptor: the JSON value itself, or the first
   * `limit` characters of its JSON text (`JSON.stringify(v).slice(0, limit)`).
   */
  datatype Sample = Raw(json: Json) | Stringified(json: Json, limit: nat)

  /** A selectable field: its dot path, a sample value, a type tag, and whether it came from an array. */
  datatype AvailableField = AvailableField(path: string, value: Sample, typeTag: string, isArray: bool)

  /** `prefix ? `${prefix}.${key}` : key`. */
  function ChildPath(prefix: string, key: string): (r: string)
    ensures prefix != "" ==> r == prefix + "." + key
    ensures prefix == "" ==> r == key
  {
    if prefix != "" then prefix + "." + key else key
  }

  /** A child's path under a non-empty prefix strictly extends that prefix. */
  lemma ChildPathExtends(prefix: string, key: string)
    requires prefix != ""
    ensures prefix < ChildPath(prefix, key)
  {
    assert ChildPath(prefix, key)[..|prefix|] == prefix;
  }

  /** `fields.map(f => ({ ...f, isArray: true }))`. */
  function MarkArray(fields: seq<AvailableField>): (r: seq<AvailableField>)
    ensures |r| == |fields|
    ensures forall i :: 0 <= i < |r| ==> r[i] == fields[i].(isArray := true)
  {
    if fields == [] then [] else [fields[0].(isArray := true)] + MarkArray(fields[1..])
  }
}
