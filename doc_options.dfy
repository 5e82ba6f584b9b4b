/** The `to_docoptions` filter of the resource_module role: a resolved
    JSON-schema model of a resource becomes the `options` of the module's
    documentation. Objects and arrays give `suboptions` built from their
    (or their items') properties; the scalar types copy `default`,
    `enum` (as `choices`) and `version_added`; every node keeps its
    `description`. Missing keys raise `AnsibleFilterError`. */
module DocOptions {
  import opened Wrappers
  import opened JsonValue
  import opened JsonSchema

  /** `dive(obj, required)`. */
  function Dive(obj: Json, required: bool): Result<Fields>
    decreases obj, 2
  {
    var hasDescription :- Contains(obj, "description");
    if !hasDescription then Err(FilterError("missing description key"))
    else if !obj.JObj? then Err(TypeError)
    else
      var fields := obj.fields;
      var description := ValueAt(fields, "description");
      if "type" !in Keys(fields) then Err(FilterError("missing type key"))
      else
        var ty := ValueAt(fields, "type");
        if IsStr(ty, "object") then
          if "properties" !in Keys(fields) then Err(FilterError("missing properties key"))
          else
            var sub :- Suboptions(fields, ValueAt(fields, "properties"));
            Ok([("description", description), ("suboptions", JObj(sub))])
        else if IsStr(ty, "array") then
          if "items" !in Keys(fields) then Err(FilterError("missing items key in array"))
          else
            var items := ValueAt(fields, "items");
            var hasProperties :- Contains(items, "properties");
            if !hasProperties then Err(FilterError("missing properties in items"))
            else if !items.JObj? then Err(TypeError)
            else
              var sub :- Suboptions(items.fields, ValueAt(items.fields, "properties"));
              Ok([("description", description), ("suboptions", JObj(sub))])
        else if IsScalarType(ty) then Ok(ScalarOptions(fields, required))
        else Ok([("description", description)])
  }

  /** `result['suboptions'][key] = dive(value, key is required)` for every
      property of `props`, the required list read from `owner`; a
      properties value that is not a dict has no `iteritems`. */
  function Suboptions(owner: Fields, props: Json): Result<Fields>
    decreases props, 1
  {
    if !props.JObj? then Err(AttributeError)
    else AssignAll(Keys(props.fields), PropResults(owner, props.fields), |props.fields|)
  }

  /** The converted value of each property, in order. */
  function PropResults(owner: Fields, props: Fields): (rs: seq<Result<Json>>)
    ensures |rs| == |props|
    ensures forall i :: 0 <= i < |props| ==> rs[i] == PropResult(owner, props[i].0, props[i].1)
    decreases JObj(props), 0
  {
    seq(|props|, i requires 0 <= i < |props| => PropResult(owner, props[i].0, props[i].1))
  }

  /** One loop turn: whether `key` is required, then its conversion. */
  function PropResult(owner: Fields, key: string, value: Json): Result<Json>
    decreases value, 3
  {
    var required :- RequiredIn(owner, key);
    var sub :- Dive(value, required);
    Ok(JObj(sub))
  }

  /** `to_docoptions(value)` up to the YAML dump: the root schema's
      suboptions under `options`. */
  function ToDocoptions(value: Json): Result<Fields> {
    var schema :- GetItem(value, "schema");
    var result :- Dive(schema, false);
    var options :- GetItem(JObj(result), "suboptions");
    Ok([("options", options)])
  }

  // ---------------------------------------------------------------------
  // What dive promises

  /** The filter errors: a node without `description` or `type`, an
      object without `properties`, an array without `items` or whose
      items have no `properties`. */
  lemma DiveErrors(obj: Fields, required: bool)
    ensures "description" !in Keys(obj) ==>
      Dive(JObj(obj), required) == Err(FilterError("missing description key"))
    ensures "description" in Keys(obj) && "type" !in Keys(obj) ==>
      Dive(JObj(obj), required) == Err(FilterError("missing type key"))
    ensures "description" in Keys(obj) && "type" in Keys(obj) && IsStr(ValueAt(obj, "type"), "object")
      && "properties" !in Keys(obj)
      ==> Dive(JObj(obj), required) == Err(FilterError("missing properties key"))
    ensures "description" in Keys(obj) && "type" in Keys(obj) && IsStr(ValueAt(obj, "type"), "array")
      && "items" !in Keys(obj)
      ==> Dive(JObj(obj), required) == Err(FilterError("missing items key in array"))
    ensures "description" in Keys(obj) && "type" in Keys(obj) && IsStr(ValueAt(obj, "type"), "array")
      && "items" in Keys(obj) && ValueAt(obj, "items").JObj? && "properties" !in Keys(ValueAt(obj, "items").fields)
      ==> Dive(JObj(obj), required) == Err(FilterError("missing properties in items"))
  {
  }

  /** A `str`, `bool` or `int` node gives its scalar options. */
  lemma DiveScalar(obj: Fields, required: bool)
    requires "description" in Keys(obj) && "type" in Keys(obj) && IsScalarType(ValueAt(obj, "type"))
    ensures Dive(JObj(obj), required) == Ok(ScalarOptions(obj, required))
  {
  }

  /** A node of any other type keeps only its description. */
  lemma DiveOther(obj: Fields, required: bool)
    requires "description" in Keys(obj) && "type" in Keys(obj)
    requires var ty := ValueAt(obj, "type"); !IsStr(ty, "object") && !IsStr(ty, "array") && !IsScalarType(ty)
    ensures Dive(JObj(obj), required) == Ok([("description", ValueAt(obj, "description"))])
  {
  }

  /** The suboptions exist exactly when every property converts; then
      their keys are the property names, each once. */
  lemma SuboptionsKeys(owner: Fields, props: Fields)
    ensures Suboptions(owner, JObj(props)).Ok? <==>
      forall i :: 0 <= i < |props| ==> PropResult(owner, props[i].0, props[i].1).Ok?
    ensures Suboptions(owner, JObj(props)).Ok? ==>
      && DistinctKeys(Suboptions(owner, JObj(props)).value)
      && forall k :: k in Keys(Suboptions(owner, JObj(props)).value) <==> k in Keys(props)
  {
    var names := Keys(props);
    var rs := PropResults(owner, props);
    var n := |props|;
    AssignAllOk(names, rs, n);
    if Suboptions(owner, JObj(props)).Ok? {
      AssignKeys(names, OkValues(rs), n);
      AssignDistinct(names, OkValues(rs), n);
      forall k ensures k in Keys(props) <==> Written(names, OkValues(rs), n, k) {
        if k in Keys(props) {
          var i :| 0 <= i < n && names[i] == k;
          assert OkValues(rs)[i].Some?;
        }
      }
    }
  }

  /** The suboption of a property is its conversion, with `required`
      as the owner lists it. */
  lemma SuboptionValue(owner: Fields, props: Fields, i: nat)
    requires i < |props| && DistinctKeys(props) && Suboptions(owner, JObj(props)).Ok?
    ensures PropResult(owner, props[i].0, props[i].1).Ok?
    ensures Lookup(Suboptions(owner, JObj(props)).value, props[i].0) ==
      Some(PropResult(owner, props[i].0, props[i].1).value)
  {
    AssignAllAt(Keys(props), PropResults(owner, props), i);
  }

  /** A property converts when the owner's required list can be read and
      its own node converts with `required` true exactly when listed. */
  lemma PropResultRequired(owner: Fields, key: string, value: Json)
    requires PropResult(owner, key, value).Ok?
    ensures RequiredIn(owner, key).Ok?
    ensures RequiredIn(owner, key).value <==> "required" in Keys(owner) && Has(ValueAt(owner, "required"), key)
    ensures Dive(value, RequiredIn(owner, key).value).Ok?
    ensures PropResult(owner, key, value) == Ok(JObj(Dive(value, RequiredIn(owner, key).value).value))
  {
  }

  /** The first property that fails to convert is the error raised. */
  lemma SuboptionsFirstErr(owner: Fields, props: Fields, m: nat)
    requires m < |props| && PropResult(owner, props[m].0, props[m].1).Err?
    requires forall i :: 0 <= i < m ==> PropResult(owner, props[i].0, props[i].1).Ok?
    ensures Suboptions(owner, JObj(props)) == Err(PropResult(owner, props[m].0, props[m].1).error)
  {
    AssignAllFirstErr(Keys(props), PropResults(owner, props), |props|, m);
  }

  /** The filter succeeds only on an object or array root, and gives back
      that root's suboptions under `options`. */
  lemma ToDocoptionsRoot(value: Json)
    requires ToDocoptions(value).Ok?
    ensures var schema := GetItem(value, "schema");
      && schema.Ok? && schema.value.JObj?
      && "type" in Keys(schema.value.fields)
      && (IsStr(ValueAt(schema.value.fields, "type"), "object") || IsStr(ValueAt(schema.value.fields, "type"), "array"))
      && var result := Dive(schema.value, false);
      && result.Ok?
      && ToDocoptions(value) == Ok([("options", Lookup(result.value, "suboptions").value)])
  {
    var schema := GetItem(value, "schema").value;
    var result := Dive(schema, false).value;
    assert "suboptions" in Keys(result);
    assert schema == JObj(schema.fields);
    var fields := schema.fields;
    var ty := ValueAt(fields, "type");
    if !IsStr(ty, "object") && !IsStr(ty, "array") {
      if IsScalarType(ty) {
        DiveScalar(fields, false);
        ScalarOptionsFacts(fields, false);
        ScalarKeysNoSuboptions();
      } else {
        DiveOther(fields, false);
      }
      assert false;
    }
  }
}
