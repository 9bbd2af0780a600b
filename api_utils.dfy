/**
 * The helpers of the widget data layer: `extractFields` (the field list the
 * add-widget form offers), `getValueByPath`, and the mapping of a
 * `cachedFetch` result to the `{ success, data, error, fromCache }` record
 * of `fetchWidgetData`.
 */
module ApiUtils {
  import opened Wrappers
  import opened Text
  import opened JsonValue
  import opened CacheService
  import ApiAdapters

  /** The descriptor one object member gives: arrays as they are, other objects as 50 characters of JSON text. */
  function MemberDescriptor(prefix: string, key: string, value: Json): (f: AvailableField)
    ensures f.path == ChildPath(prefix, key)
    ensures f.typeTag == TypeName(value)
    ensures f.isArray <==> value.JArr?
    ensures f.value == (if value.JNull? || value.JObj? then Stringified(value, 50) else Raw(value))
  {
    AvailableField(
      ChildPath(prefix, key),
      if value.JArr? then Raw(value) else if IsObjectType(value) then Stringified(value, 50) else Raw(value),
      TypeName(value),
      value.JArr?)
  }

  /**
   * `extractFields`: [] for null and for scalars; an array of objects is
   * described by its first element, every descriptor flagged `isArray`; any
   * other array by one 'array' descriptor at `prefix || 'root'`; an object by
   * one descriptor per member, each followed by the descriptors of its value
   * when that is a (non-null, non-array) object.
   */
  function Fields(data: Json, prefix: string): seq<AvailableField>
    decreases data, 1, 0
  {
    if data.JArr? then
      if |data.items| > 0 && IsNonNullObject(data.items[0]) then
        MarkArray(Fields(data.items[0], prefix))
      else [AvailableField(if prefix != "" then prefix else "root", Raw(data), "array", true)]
    else if data.JObj? then MemberFields(data, 0, prefix)
    else []
  }

  /** The descriptors of the members from index `i` on. */
  function MemberFields(obj: Json, i: nat, prefix: string): seq<AvailableField>
    requires obj.JObj? && i <= |obj.members|
    decreases obj, 0, |obj.members| - i
  {
    if i == |obj.members| then []
    else
      Contribution(obj, i, prefix) + MemberFields(obj, i + 1, prefix)
  }

  /** The descriptors that follow a member's own: its value's, when that is an object. */
  function NestedFields(value: Json, path: string): seq<AvailableField>
    decreases value, 2, 0
  {
    if value.JObj? then Fields(value, path) else []
  }

  /** `extractFields`, with the member loop pushing each descriptor and then the nested ones. */
  method ExtractFields(data: Json, prefix: string) returns (fields: seq<AvailableField>)
    ensures fields == Fields(data, prefix)
    decreases data, 2
  {
    if data.JNull? {
      return [];
    }
    if data.JArr? {
      if |data.items| > 0 && IsNonNullObject(data.items[0]) {
        var nested := ExtractFields(data.items[0], prefix);
        return MarkArray(nested);
      }
      return [AvailableField(if prefix != "" then prefix else "root", Raw(data), "array", true)];
    }
    if data.JObj? {
      fields := ExtractMemberFields(data, prefix);
    } else {
      fields := [];
    }
  }

  /** The loop over `Object.entries(data)` of `extractFields`. */
  method ExtractMemberFields(obj: Json, prefix: string) returns (fields: seq<AvailableField>)
    requires obj.JObj?
    ensures fields == MemberFields(obj, 0, prefix)
    decreases obj, 1
  {
    fields := [];
    var i := 0;
    while i < |obj.members|
      invariant 0 <= i <= |obj.members|
      invariant fields == FieldsBefore(obj, i, prefix)
    {
      fields := PushMember(obj, i, prefix, fields);
      i := i + 1;
    }
    AllFieldsBefore(obj, prefix);
  }

  /** The loop body: pushes member `i`'s descriptors onto those pushed before it. */
  method PushMember(obj: Json, i: nat, prefix: string, before: seq<AvailableField>) returns (after: seq<AvailableField>)
    requires obj.JObj? && i < |obj.members|
    requires before == FieldsBefore(obj, i, prefix)
    ensures after == FieldsBefore(obj, i + 1, prefix)
    decreases obj, 0, 1
  {
    var chunk := MemberChunk(obj, i, prefix);
    after := before + chunk;
  }

  /** One turn of the member loop: the member's descriptor, then its value's when that is an object. */
  method MemberChunk(obj: Json, i: nat, prefix: string) returns (chunk: seq<AvailableField>)
    requires obj.JObj? && i < |obj.members|
    ensures chunk == Contribution(obj, i, prefix)
    decreases obj, 0, 0
  {
    var key, value := obj.members[i].0, obj.members[i].1;
    assert obj.members[i] in obj.members;
    var f := MemberDescriptor(prefix, key, value);
    var nested: seq<AvailableField> := [];
    if value.JObj? {
      nested := ExtractFields(value, f.path);
    }
    chunk := [f] + nested;
  }

  /** The descriptors member `i` contributes: its own, then its value's. */
  function Contribution(obj: Json, i: nat, prefix: string): seq<AvailableField>
    requires obj.JObj? && i < |obj.members|
    decreases obj, 0, |obj.members| - i - 1
  {
    assert obj.members[i] in obj.members;
    var f := MemberDescriptor(prefix, obj.members[i].0, obj.members[i].1);
    [f] + NestedFields(obj.members[i].1, f.path)
  }

  /** The descriptors of the members before index `i`, as the loop of `extractFields` has pushed them. */
  function FieldsBefore(obj: Json, i: nat, prefix: string): seq<AvailableField>
    requires obj.JObj? && i <= |obj.members|
  {
    if i == 0 then [] else FieldsBefore(obj, i - 1, prefix) + Contribution(obj, i - 1, prefix)
  }

  /** Member `i`'s descriptors come first among those from index `i` on. */
  lemma ContributionThenRest(obj: Json, i: nat, prefix: string)
    requires obj.JObj? && i < |obj.members|
    ensures |Contribution(obj, i, prefix)| >= 1
    ensures Contribution(obj, i, prefix) + MemberFields(obj, i + 1, prefix) == MemberFields(obj, i, prefix)
  {
  }

  /** The descriptors pushed so far, followed by those still to come, are all of them. */
  lemma {:induction false} FieldsBeforeAndFrom(obj: Json, i: nat, prefix: string)
    requires obj.JObj? && i <= |obj.members|
    ensures FieldsBefore(obj, i, prefix) + MemberFields(obj, i, prefix) == MemberFields(obj, 0, prefix)
  {
    if i > 0 {
      FieldsBeforeAndFrom(obj, i - 1, prefix);
      var before, c, rest := FieldsBefore(obj, i - 1, prefix), Contribution(obj, i - 1, prefix), MemberFields(obj, i, prefix);
      assert FieldsBefore(obj, i, prefix) == before + c;
      ContributionThenRest(obj, i - 1, prefix);
      AppendAssociative(before, c, rest);
    }
  }

  /** Once the loop has visited every member it has pushed all the descriptors. */
  lemma AllFieldsBefore(obj: Json, prefix: string)
    requires obj.JObj?
    ensures FieldsBefore(obj, |obj.members|, prefix) == MemberFields(obj, 0, prefix)
  {
    FieldsBeforeAndFrom(obj, |obj.members|, prefix);
    assert MemberFields(obj, |obj.members|, prefix) == [];
  }

  /** Scalars (numbers, strings, booleans) and null give no fields. */
  lemma ScalarsHaveNoFields(data: Json, prefix: string)
    requires !IsNonNullObject(data)
    ensures Fields(data, prefix) == []
  {
  }

  /** An array of objects is described by its first element, every descriptor marked as inside an array. */
  lemma ArrayDescribedByFirstElement(items: seq<Json>, prefix: string)
    requires |items| > 0 && IsNonNullObject(items[0])
    ensures Fields(JArr(items), prefix) == MarkArray(Fields(items[0], prefix))
    ensures forall i :: 0 <= i < |Fields(JArr(items), prefix)| ==> Fields(JArr(items), prefix)[i].isArray
  {
  }

  /** An array not led by an object is one `array` descriptor, at the prefix or at `root` without one. */
  lemma PlainArrayIsOneField(items: seq<Json>, prefix: string)
    requires |items| == 0 || !IsNonNullObject(items[0])
    ensures var r := Fields(JArr(items), prefix);
      && |r| == 1 && r[0].path == (if prefix != "" then prefix else "root")
      && r[0].typeTag == "array" && r[0].isArray && r[0].value == Raw(JArr(items))
  {
  }

  /** The number of descriptors of an object is at least its number of members. */
  lemma {:induction false} MemberFieldsCount(obj: Json, i: nat, prefix: string)
    requires obj.JObj? && i <= |obj.members|
    ensures |MemberFields(obj, i, prefix)| >= |obj.members| - i
    decreases |obj.members| - i
  {
    if i < |obj.members| {
      MemberFieldsCount(obj, i + 1, prefix);
      ContributionThenRest(obj, i, prefix);
    }
  }

  // ---------------------------------------------------------------------------
  // The two field extractors compared

  /** The paths of a field list, in order. */
  function Paths(fields: seq<AvailableField>): (r: seq<string>)
    ensures |r| == |fields|
    ensures forall i :: 0 <= i < |fields| ==> r[i] == fields[i].path
  {
    if fields == [] then [] else [fields[0].path] + Paths(fields[1..])
  }

  lemma {:induction false} PathsAppend(a: seq<AvailableField>, b: seq<AvailableField>)
    ensures Paths(a + b) == Paths(a) + Paths(b)
  {
    assert Paths(a + b) == Paths(a) + Paths(b);
  }

  lemma {:induction false} PathsMarkArray(fields: seq<AvailableField>)
    ensures Paths(MarkArray(fields)) == Paths(fields)
  {
    assert Paths(MarkArray(fields)) == Paths(fields);
  }

  /** No key at any depth the extractors visit names a time series. */
  predicate NoSeriesKeys(data: Json)
    decreases data, 1, 0
  {
    if data.JArr? then |data.items| > 0 ==> NoSeriesKeys(data.items[0])
    else if data.JObj? then NoSeriesMembers(data, 0)
    else true
  }

  predicate NoSeriesMembers(obj: Json, i: nat)
    requires obj.JObj? && i <= |obj.members|
    decreases obj, 0, |obj.members| - i
  {
    i == |obj.members| || (
      assert obj.members[i] in obj.members;
      && !ApiAdapters.IsTimeSeriesKey(obj.members[i].0)
      && NoSeriesKeys(obj.members[i].1)
      && NoSeriesMembers(obj, i + 1))
  }

  /**
   * Where no key names a time series and the walk starts at an object or
   * under a non-empty prefix (so that the array fallbacks, 'root' and
   * 'data', are not taken at an empty path), `extractFields` and `extractFieldsWithTypes` offer the
   * same paths in the same order.
   */
  lemma {:induction false} ExtractorsAgreeOnPaths(data: Json, prefix: string)
    requires NoSeriesKeys(data)
    requires prefix != "" || data.JObj?
    ensures Paths(Fields(data, prefix)) == Paths(ApiAdapters.FieldsWithTypes(data, prefix))
    decreases data, 1, 0
  {
    if data.JArr? {
      if |data.items| > 0 && IsNonNullObject(data.items[0]) {
        ExtractorsAgreeOnPaths(data.items[0], prefix);
        PathsMarkArray(Fields(data.items[0], prefix));
        PathsMarkArray(ApiAdapters.FieldsWithTypes(data.items[0], prefix));
      }
    } else if data.JObj? {
      ExtractorsAgreeOnMembers(data, 0, prefix);
    }
  }

  lemma {:induction false} ExtractorsAgreeOnMembers(obj: Json, i: nat, prefix: string)
    requires obj.JObj? && i <= |obj.members| && NoSeriesMembers(obj, i)
    ensures Paths(MemberFields(obj, i, prefix)) == Paths(ApiAdapters.MemberFieldsWithTypes(obj, i, prefix))
    decreases obj, 0, |obj.members| - i
  {
    if i < |obj.members| {
      var key, value := obj.members[i].0, obj.members[i].1;
      assert obj.members[i] in obj.members;
      var path := ChildPath(prefix, key);
      var d := MemberDescriptor(prefix, key, value);
      var t := ApiAdapters.MemberField(prefix, key, value);
      var n1 := NestedFields(value, path);
      var n2 := ApiAdapters.NestedFields(key, value, path);
      var r1 := MemberFields(obj, i + 1, prefix);
      var r2 := ApiAdapters.MemberFieldsWithTypes(obj, i + 1, prefix);
      assert MemberFields(obj, i, prefix) == [d] + n1 + r1;
      assert ApiAdapters.MemberFieldsWithTypes(obj, i, prefix) == [t] + n2 + r2;
      if value.JObj? {
        ExtractorsAgreeOnPaths(value, path);
      }
      ExtractorsAgreeOnMembers(obj, i + 1, prefix);
      PathsAppend([d] + n1, r1);
      PathsAppend([d], n1);
      PathsAppend([t] + n2, r2);
      PathsAppend([t], n2);
    }
  }

  // ---------------------------------------------------------------------------
  // `getValueByPath`

  /** `getValueByPath`: the same walk as `getNestedValue`. */
  method GetValueByPath(root: Json, path: string) returns (r: Option<Json>)
    ensures r == NestedValue(root, path)
  {
    if !Truthy(Some(root)) || !IsObjectType(root) {
      return None;
    }
    var parts := Split(path, '.');
    var current := Some(root);
    for i := 0 to |parts|
      invariant Walk(current, parts[i..]) == NestedValue(root, path)
    {
      if current.None? || current.value.JNull? {
        return None;
      }
      if !IsObjectType(current.value) {
        return None;
      }
      current := Prop(current.value, parts[i]);
      assert parts[i..][1..] == parts[i + 1..];
    }
    return current;
  }

  /** A path through nested objects reaches the value at its end. */
  lemma {:induction false} PathThroughObjects(a: string, b: string, c: string, leaf: Json)
    requires '.' !in a && '.' !in b && '.' !in c
    ensures NestedValue(JObj([(a, JObj([(b, JObj([(c, leaf)]))]))]), a + "." + b + "." + c) == Some(leaf)
  {
    var parts := [a, b, c];
    SplitThree(a, b, c);
    var inner := JObj([(c, leaf)]);
    var middle := JObj([(b, inner)]);
    var root := JObj([(a, middle)]);
    assert Prop(root, a) == Some(middle);
    assert Prop(middle, b) == Some(inner);
    assert Prop(inner, c) == Some(leaf);
    assert Walk(Some(inner), [c]) == Some(leaf);
    assert Walk(Some(middle), [b, c]) == Some(leaf) by {
      assert [b, c][1..] == [c];
    }
    assert Walk(Some(root), parts) == Some(leaf) by {
      assert parts[1..] == [b, c];
    }
  }

  lemma SplitThree(a: string, b: string, c: string)
    requires '.' !in a && '.' !in b && '.' !in c
    ensures Split(a + "." + b + "." + c, '.') == [a, b, c]
  {
    var parts := [a, b, c];
    assert Join(parts, '.') == a + "." + b + "." + c by {
      assert Join(parts[2..], '.') == c;
      assert Join(parts[1..], '.') == b + "." + c;
    }
    SplitJoin(parts, '.');
  }

  /** A path with a segment past a scalar is undefined: `price.value` under `{"price": 5}`. */
  lemma {:induction false} PathPastScalar(a: string, b: string, leaf: Json)
    requires '.' !in a && '.' !in b && !IsObjectType(leaf)
    ensures NestedValue(JObj([(a, leaf)]), a + "." + b) == None
  {
    var parts := [a, b];
    assert Join(parts, '.') == a + "." + b by {
      assert Join(parts[1..], '.') == b;
    }
    SplitJoin(parts, '.');
    var root := JObj([(a, leaf)]);
    assert Walk(Some(root), parts) == Walk(Some(leaf), [b]);
  }

  // ---------------------------------------------------------------------------
  // `fetchWidgetData`

  /** The record `fetchWidgetData` resolves to. */
  datatype WidgetData = WidgetData(success: bool, data: Option<Json>, error: Option<string>, fromCache: bool)

  /** The options `fetchWidgetData` passes to `cachedFetch`: the recommended TTL and the caller's skip flag. */
  function WidgetFetchOptions(url: string, skipCache: Option<bool>): (o: Option<FetchOptions>)
    ensures o.Some? && IsReadRequest(o) && !HasBody(o)
    ensures FetchTtl(o) == RecommendedTtl(url)
    ensures SkipsCache(o) <==> skipCache == Some(true)
  {
    Some(FetchOptions(None, None, Some(RecommendedTtl(url)), skipCache))
  }

  /**
   * The result mapping of `fetchWidgetData`: failure with the error when
   * the error is a non-empty string (the test is on its truthiness),
   * otherwise success with the data; `fromCache` is passed through.
   */
  function WidgetDataOf(result: FetchResult): (w: WidgetData)
    ensures !w.success <==> result.error.Some? && result.error.value != ""
    ensures w.success ==> w.data == Some(result.data) && w.error.None?
    ensures !w.success ==> w.data.None? && w.error == result.error
    ensures w.fromCache == result.fromCache
  {
    if result.error.Some? && result.error.value != "" then
      WidgetData(false, None, result.error, result.fromCache)
    else
      WidgetData(true, Some(result.data), None, result.fromCache)
  }

  /** A failed request reports failure, except when the thrown error has an empty message. */
  lemma FailureReported(response: Response)
    requires !response.Ok?
    ensures WidgetDataOf(FetchResult(OutcomeOf(response).data, false, OutcomeOf(response).error)).success
        <==> response.Failed? && response.message == Some("")
  {
    if response.HttpError? {
      assert |"HTTP " + NatToString(response.status)| > 0;
    }
  }

  /** A successful response reaches the widget as success with the parsed body. */
  lemma SuccessReported(body: Json, fromCache: bool)
    ensures WidgetDataOf(FetchResult(OutcomeOf(Ok(body)).data, fromCache, OutcomeOf(Ok(body)).error))
         == WidgetData(true, Some(body), None, fromCache)
  {
  }
}
