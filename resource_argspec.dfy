/** The `to_argspec` filter of the resource_module role: a resolved
    JSON-schema model of a resource becomes the module's argument spec.
    Objects and arrays give `options` built from their (or their items')
    properties, an array also its `elements` and, once it has a property,
    `type: list`; the scalar types always carry `required` and `type`.
    Missing keys raise `AnsibleFilterError`, a missing `elements` a
    `KeyError`. */
module ResourceArgspec {
  import opened Wrappers
  import opened JsonValue
  import opened JsonSchema

  /** The keys a scalar node's argument spec can hold, in the order they
      are written. */
  const ArgspecScalarKeys: seq<string> := ["default", "choices", "version_added", "required", "type"]

  /** `dive(obj, required)`. */
  function Dive(obj: Json, required: bool): Result<Fields>
    decreases obj, 2
  {
    var hasType :- Contains(obj, "type");
    if !hasType then Err(FilterError("missing type key"))
    else if !obj.JObj? then Err(TypeError)
    else
      var fields := obj.fields;
      var ty := ValueAt(fields, "type");
      if IsStr(ty, "object") then
        if "properties" !in Keys(fields) then Err(FilterError("missing properties key"))
        else
          var options :- Options(fields, ValueAt(fields, "properties"));
          Ok([("options", JObj(options))])
      else if IsStr(ty, "array") then
        if "elements" !in Keys(fields) then Err(KeyError("elements"))
        else
          var elements := ValueAt(fields, "elements");
          if "items" !in Keys(fields) then Err(FilterError("missing items key in array"))
          else
            var items := ValueAt(fields, "items");
            var hasProperties :- Contains(items, "properties");
            if !hasProperties then Err(FilterError("missing properties in items"))
            else if !items.JObj? then Err(TypeError)
            else
              var props := ValueAt(items.fields, "properties");
              var options :- Options(items.fields, props);
              Ok(ArrayArgspec(options, elements, props))
      else if IsScalarType(ty) then Ok(ArgspecScalar(fields, required))
      else Ok([])
  }

  /** The keys an array's argument spec can hold, in the order they are
      written. */
  const ArrayKeys: seq<string> := ["options", "elements", "type"]

  /** What an array writes once its items' options are known:
      `elements` when that value is truthy, and `type: list` from the
      first turn of the properties loop on. */
  function ArrayEntries(options: Fields, elements: Json, props: Json): (r: seq<Option<Json>>)
    ensures |r| == |ArrayKeys|
  {
    [Some(JObj(options)), if Truthy(elements) then Some(elements) else None,
     if props.JObj? && props.fields != [] then Some(Str("list")) else None]
  }

  /** An array's argument spec. */
  function ArrayArgspec(options: Fields, elements: Json, props: Json): Fields {
    Assign(ArrayKeys, ArrayEntries(options, elements, props), |ArrayKeys|)
  }

  /** What a scalar node writes, as the conditional assignments
      `result[key] = ...` in source order. */
  function ArgspecScalarEntries(fields: Fields, required: bool): (r: seq<Option<Json>>)
    requires "type" in Keys(fields)
    ensures |r| == |ArgspecScalarKeys|
  {
    [Lookup(fields, "default"), Lookup(fields, "enum"), Lookup(fields, "version_added"),
     Some(JBool(required)), Some(ValueAt(fields, "type"))]
  }

  /** The argument spec of a node whose type is `str`, `bool` or `int`. */
  function ArgspecScalar(fields: Fields, required: bool): Fields
    requires "type" in Keys(fields)
  {
    Assign(ArgspecScalarKeys, ArgspecScalarEntries(fields, required), |ArgspecScalarKeys|)
  }

  /** `result['options'][key] = dive(value, key is required)` for every
      property of `props`, the required list read from `owner`; a
      properties value that is not a dict has no `items`. */
  function Options(owner: Fields, props: Json): Result<Fields>
    decreases props, 1
  {
    if !props.JObj? then Err(AttributeError)
    else AssignAll(Keys(props.fields), PropResults(owner, props.fields), |props.fields|)
  }

  /** The converted value of each property, in order. */
  function PropResults(owner: Fields, props: Fields): (rs: seq<Result<Json>>)
    ensures |rs| == |props|
    ensures forall i :: 0 <= i < |props| ==> rs[i] == PropResult(owner, props[i].0, props[i].1)
    decreases JObj(props), 0
  {
    seq(|props|, i requires 0 <= i < |props| => PropResult(owner, props[i].0, props[i].1))
  }

  /** One loop turn: whether `key` is required, then its conversion. */
  function PropResult(owner: Fields, key: string, value: Json): Result<Json>
    decreases value, 3
  {
    var required :- RequiredIn(owner, key);
    var sub :- Dive(value, required);
    Ok(JObj(sub))
  }

  /** `to_argspec(value)` up to `str`: the root schema's options. */
  function ToArgspec(value: Json): Result<Json> {
    var schema :- GetItem(value, "schema");
    var result :- Dive(schema, false);
    GetItem(JObj(result), "options")
  }

  // ---------------------------------------------------------------------
  // What dive promises

  /** The errors: a node without `type`, an object without `properties`,
      an array without `elements` (read before anything else), without
      `items`, or whose items have no `properties`. */
  lemma DiveErrors(obj: Fields, required: bool)
    ensures "type" !in Keys(obj) ==> Dive(JObj(obj), required) == Err(FilterError("missing type key"))
    ensures "type" in Keys(obj) && IsStr(ValueAt(obj, "type"), "object") && "properties" !in Keys(obj)
      ==> Dive(JObj(obj), required) == Err(FilterError("missing properties key"))
    ensures "type" in Keys(obj) && IsStr(ValueAt(obj, "type"), "array") && "elements" !in Keys(obj)
      ==> Dive(JObj(obj), required) == Err(KeyError("elements"))
    ensures "type" in Keys(obj) && IsStr(ValueAt(obj, "type"), "array") && "elements" in Keys(obj)
      && "items" !in Keys(obj)
      ==> Dive(JObj(obj), required) == Err(FilterError("missing items key in array"))
    ensures "type" in Keys(obj) && IsStr(ValueAt(obj, "type"), "array") && "elements" in Keys(obj)
      && "items" in Keys(obj) && ValueAt(obj, "items").JObj? && "properties" !in Keys(ValueAt(obj, "items").fields)
      ==> Dive(JObj(obj), required) == Err(FilterError("missing properties in items"))
  {
  }

  /** An array converts exactly when it has `elements` and `items`, the
      items hold `properties` and these convert; then its argument spec
      is built from their options. */
  lemma DiveArray(obj: Fields, required: bool)
    requires "type" in Keys(obj) && IsStr(ValueAt(obj, "type"), "array") && Dive(JObj(obj), required).Ok?
    ensures "elements" in Keys(obj) && "items" in Keys(obj) && ValueAt(obj, "items").JObj?
    ensures var items := ValueAt(obj, "items").fields;
      && "properties" in Keys(items)
      && var props := ValueAt(items, "properties");
      && Options(items, props).Ok?
      && Dive(JObj(obj), required) == Ok(ArrayArgspec(Options(items, props).value, ValueAt(obj, "elements"), props))
  {
  }

  /** The array argument spec: its options, `elements` exactly when that
      value is truthy, and `type: list` exactly when the items have at
      least one property. */
  lemma ArrayArgspecFacts(options: Fields, elements: Json, props: Fields)
    ensures var r := ArrayArgspec(options, elements, JObj(props));
      && DistinctKeys(r)
      && Lookup(r, "options") == Some(JObj(options))
      && Lookup(r, "elements") == (if Truthy(elements) then Some(elements) else None)
      && Lookup(r, "type") == (if props != [] then Some(Str("list")) else None)
  {
    var entries := ArrayEntries(options, elements, JObj(props));
    assert ArrayKeys[0] != ArrayKeys[1] && ArrayKeys[0] != ArrayKeys[2] && ArrayKeys[1] != ArrayKeys[2];
    AssignDistinct(ArrayKeys, entries, 3);
    AssignNamed(ArrayKeys, entries, 0);
    AssignNamed(ArrayKeys, entries, 1);
    AssignNamed(ArrayKeys, entries, 2);
  }

  /** A `str`, `bool` or `int` node gives its scalar argument spec. */
  lemma DiveScalar(obj: Fields, required: bool)
    requires "type" in Keys(obj) && IsScalarType(ValueAt(obj, "type"))
    ensures Dive(JObj(obj), required) == Ok(ArgspecScalar(obj, required))
  {
  }

  /** The scalar argument spec copies `default` and `version_added`,
      turns `enum` into `choices`, and always carries `required` and
      `type`. */
  lemma ArgspecScalarFacts(obj: Fields, required: bool)
    requires "type" in Keys(obj)
    ensures var r := ArgspecScalar(obj, required);
      && Lookup(r, "type") == Some(ValueAt(obj, "type"))
      && Lookup(r, "required") == Some(JBool(required))
      && Lookup(r, "default") == Lookup(obj, "default")
      && Lookup(r, "choices") == Lookup(obj, "enum")
      && Lookup(r, "version_added") == Lookup(obj, "version_added")
      && (forall k :: k in Keys(r) ==> k in ArgspecScalarKeys)
  {
    var entries := ArgspecScalarEntries(obj, required);
    ArgspecScalarKeysDistinct();
    AssignNamed(ArgspecScalarKeys, entries, 0);
    AssignNamed(ArgspecScalarKeys, entries, 1);
    AssignNamed(ArgspecScalarKeys, entries, 2);
    AssignNamed(ArgspecScalarKeys, entries, 3);
    AssignNamed(ArgspecScalarKeys, entries, 4);
  }

  lemma ArgspecScalarKeysDistinct()
    ensures forall a, b :: 0 <= a < b < |ArgspecScalarKeys| ==> ArgspecScalarKeys[a] != ArgspecScalarKeys[b]
  {
  }

  /** A scalar node has no `options`: nested options come only from an
      object or an array. */
  lemma ArgspecScalarKeysNoOptions()
    ensures "options" !in ArgspecScalarKeys
  {
  }

  /** A node of any other type gives an empty argument spec. */
  lemma DiveOther(obj: Fields, required: bool)
    requires "type" in Keys(obj)
    requires var ty := ValueAt(obj, "type"); !IsStr(ty, "object") && !IsStr(ty, "array") && !IsScalarType(ty)
    ensures Dive(JObj(obj), required) == Ok([])
  {
  }

  /** The options exist exactly when every property converts; then their
      keys are the property names, each once. */
  lemma OptionsKeys(owner: Fields, props: Fields)
    ensures Options(owner, JObj(props)).Ok? <==>
      forall i :: 0 <= i < |props| ==> PropResult(owner, props[i].0, props[i].1).Ok?
    ensures Options(owner, JObj(props)).Ok? ==>
      && DistinctKeys(Options(owner, JObj(props)).value)
      && forall k :: k in Keys(Options(owner, JObj(props)).value) <==> k in Keys(props)
  {
    var names := Keys(props);
    var rs := PropResults(owner, props);
    var n := |props|;
    AssignAllOk(names, rs, n);
    if Options(owner, JObj(props)).Ok? {
      AssignKeys(names, OkValues(rs), n);
      AssignDistinct(names, OkValues(rs), n);
      forall k ensures k in Keys(props) <==> Written(names, OkValues(rs), n, k) {
        if k in Keys(props) {
          var i :| 0 <= i < n && names[i] == k;
          assert OkValues(rs)[i].Some?;
        }
      }
    }
  }

  /** The option of a property is its conversion. */
  lemma OptionValue(owner: Fields, props: Fields, i: nat)
    requires i < |props| && DistinctKeys(props) && Options(owner, JObj(props)).Ok?
    ensures PropResult(owner, props[i].0, props[i].1).Ok?
    ensures Lookup(Options(owner, JObj(props)).value, props[i].0) ==
      Some(PropResult(owner, props[i].0, props[i].1).value)
  {
    AssignAllAt(Keys(props), PropResults(owner, props), i);
  }

  /** A property converts with `required` true exactly when the owner
      lists it as required. */
  lemma PropResultRequired(owner: Fields, key: string, value: Json)
    requires PropResult(owner, key, value).Ok?
    ensures RequiredIn(owner, key).Ok?
    ensures RequiredIn(owner, key).value <==> "required" in Keys(owner) && Has(ValueAt(owner, "required"), key)
    ensures Dive(value, RequiredIn(owner, key).value).Ok?
    ensures PropResult(owner, key, value) == Ok(JObj(Dive(value, RequiredIn(owner, key).value).value))
  {
  }

  /** The first property that fails to convert is the error raised. */
  lemma OptionsFirstErr(owner: Fields, props: Fields, m: nat)
    requires m < |props| && PropResult(owner, props[m].0, props[m].1).Err?
    requires forall i :: 0 <= i < m ==> PropResult(owner, props[i].0, props[i].1).Ok?
    ensures Options(owner, JObj(props)) == Err(PropResult(owner, props[m].0, props[m].1).error)
  {
    AssignAllFirstErr(Keys(props), PropResults(owner, props), |props|, m);
  }

  /** The filter succeeds only on an object or array root, and gives back
      that root's options. */
  lemma ToArgspecRoot(value: Json)
    requires ToArgspec(value).Ok?
    ensures var schema := GetItem(value, "schema");
      && schema.Ok? && schema.value.JObj?
      && "type" in Keys(schema.value.fields)
      && (IsStr(ValueAt(schema.value.fields, "type"), "object") || IsStr(ValueAt(schema.value.fields, "type"), "array"))
      && var result := Dive(schema.value, false);
      && result.Ok?
      && ToArgspec(value) == Ok(Lookup(result.value, "options").value)
  {
    var schema := GetItem(value, "schema").value;
    var r := Dive(schema, false).value;
    assert "options" in Keys(r);
    assert schema == JObj(schema.fields);
    var fields := schema.fields;
    var ty := ValueAt(fields, "type");
    if !IsStr(ty, "object") && !IsStr(ty, "array") {
      if IsScalarType(ty) {
        DiveScalar(fields, false);
        ArgspecScalarFacts(fields, false);
        ArgspecScalarKeysNoOptions();
      } else {
        DiveOther(fields, false);
      }
      assert false;
    }
  }
}
