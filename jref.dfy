/** The `jref` script: the same walk over a resolved JSON-schema model as
    the `to_docoptions` filter, written before it. Its checks for missing
    keys only print a warning, so a missing key surfaces as the
    `KeyError` of the subscript that follows, and a properties value that
    is not a dict as the `AttributeError` of its `items()`. */
module Jref {
  import opened Wrappers
  import opened JsonValue
  import opened JsonSchema
  import DocOptions

  /** `dive(obj, required)`. */
  function Dive(obj: Json, required: bool): Result<Fields>
    decreases obj, 2
  {
    var _ :- Contains(obj, "description");
    var description :- GetItem(obj, "description");
    var ty :- GetItem(obj, "type");
    var fields := obj.fields;
    if IsStr(ty, "object") then
      var props :- GetItem(obj, "properties");
      var sub :- Suboptions(fields, props);
      Ok([("description", description), ("suboptions", JObj(sub))])
    else if IsStr(ty, "array") then
      var items :- GetItem(obj, "items");
      var props :- GetItem(items, "properties");
      var sub :- Suboptions(items.fields, props);
      Ok([("description", description), ("suboptions", JObj(sub))])
    else if IsScalarType(ty) then Ok(ScalarOptions(fields, required))
    else Ok([("description", description)])
  }

  /** `result['suboptions'][key] = dive(value, key is required)` for every
      item of `props.items()`, the required list read from `owner`. */
  function Suboptions(owner: Fields, props: Json): Result<Fields>
    decreases props, 1
  {
    if !props.JObj? then Err(AttributeError)
    else AssignAll(Keys(props.fields), PropResults(owner, props.fields), |props.fields|)
  }

  /** The converted value of each property, in order. */
  function PropResults(owner: Fields, props: Fields): (rs: seq<Result<Json>>)
    ensures |rs| == |props|
    ensures forall i :: 0 <= i < |props| ==> rs[i] == PropResult(owner, props[i].0, props[i].1)
    decreases JObj(props), 0
  {
    seq(|props|, i requires 0 <= i < |props| => PropResult(owner, props[i].0, props[i].1))
  }

  /** One loop turn: whether `key` is required, then its conversion. */
  function PropResult(owner: Fields, key: string, value: Json): Result<Json>
    decreases value, 3
  {
    var required :- RequiredIn(owner, key);
    var sub :- Dive(value, required);
    Ok(JObj(sub))
  }

  /** What the script computes before printing it: the root schema's
      options. */
  function Script(data: Json): Result<Fields> {
    var schema :- GetItem(data, "schema");
    Dive(schema, false)
  }

  // ---------------------------------------------------------------------
  // What dive promises

  /** The errors that replace the printed warnings: the subscript of a
      missing `description`, `type`, `properties` or `items` key raises
      `KeyError`, a node that is not a dict `TypeError`, and a properties
      value that is not a dict `AttributeError`. */
  lemma DiveErrors(obj: Json, required: bool)
    ensures !obj.JObj? ==> Dive(obj, required) == Err(TypeError)
    ensures obj.JObj? && "description" !in Keys(obj.fields) ==> Dive(obj, required) == Err(KeyError("description"))
    ensures obj.JObj? && "description" in Keys(obj.fields) && "type" !in Keys(obj.fields)
      ==> Dive(obj, required) == Err(KeyError("type"))
    ensures obj.JObj? && "description" in Keys(obj.fields) && "type" in Keys(obj.fields)
      && IsStr(ValueAt(obj.fields, "type"), "object") && "properties" !in Keys(obj.fields)
      ==> Dive(obj, required) == Err(KeyError("properties"))
    ensures obj.JObj? && "description" in Keys(obj.fields) && "type" in Keys(obj.fields)
      && IsStr(ValueAt(obj.fields, "type"), "object") && "properties" in Keys(obj.fields)
      && !ValueAt(obj.fields, "properties").JObj?
      ==> Dive(obj, required) == Err(AttributeError)
    ensures obj.JObj? && "description" in Keys(obj.fields) && "type" in Keys(obj.fields)
      && IsStr(ValueAt(obj.fields, "type"), "array") && "items" !in Keys(obj.fields)
      ==> Dive(obj, required) == Err(KeyError("items"))
    ensures obj.JObj? && "description" in Keys(obj.fields) && "type" in Keys(obj.fields)
      && IsStr(ValueAt(obj.fields, "type"), "array") && "items" in Keys(obj.fields)
      && ValueAt(obj.fields, "items").JObj? && "properties" !in Keys(ValueAt(obj.fields, "items").fields)
      ==> Dive(obj, required) == Err(KeyError("properties"))
  {
  }

  /** A `str`, `bool` or `int` node gives the same scalar options as the
      filter. */
  lemma DiveScalar(obj: Fields, required: bool)
    requires "description" in Keys(obj) && "type" in Keys(obj) && IsScalarType(ValueAt(obj, "type"))
    ensures Dive(JObj(obj), required) == Ok(ScalarOptions(obj, required))
  {
  }

  /** The suboptions exist exactly when every property converts; then
      their keys are the property names, each once, and each holds its
      conversion. */
  lemma SuboptionsKeys(owner: Fields, props: Fields)
    ensures Suboptions(owner, JObj(props)).Ok? <==>
      forall i :: 0 <= i < |props| ==> PropResult(owner, props[i].0, props[i].1).Ok?
    ensures Suboptions(owner, JObj(props)).Ok? ==>
      && DistinctKeys(Suboptions(owner, JObj(props)).value)
      && forall k :: k in Keys(Suboptions(owner, JObj(props)).value) <==> k in Keys(props)
  {
    var names := Keys(props);
    var rs := PropResults(owner, props);
    var n := |props|;
    AssignAllOk(names, rs, n);
    if Suboptions(owner, JObj(props)).Ok? {
      AssignKeys(names, OkValues(rs), n);
      AssignDistinct(names, OkValues(rs), n);
      forall k ensures k in Keys(props) <==> Written(names, OkValues(rs), n, k) {
        if k in Keys(props) {
          var i :| 0 <= i < n && names[i] == k;
          assert OkValues(rs)[i].Some?;
        }
      }
    }
  }

  /** The suboption of a property is its conversion. */
  lemma SuboptionValue(owner: Fields, props: Fields, i: nat)
    requires i < |props| && DistinctKeys(props) && Suboptions(owner, JObj(props)).Ok?
    ensures PropResult(owner, props[i].0, props[i].1).Ok?
    ensures Lookup(Suboptions(owner, JObj(props)).value, props[i].0) ==
      Some(PropResult(owner, props[i].0, props[i].1).value)
  {
    AssignAllAt(Keys(props), PropResults(owner, props), i);
  }

  // ---------------------------------------------------------------------
  // The script and the filter agree

  /** Wherever either the script or the `to_docoptions` filter converts a
      node, both do, to the same options: they differ only in how they
      fail. */
  lemma {:induction false} DiveAgrees(obj: Json, required: bool)
    ensures Dive(obj, required).Ok? <==> DocOptions.Dive(obj, required).Ok?
    ensures Dive(obj, required).Ok? ==> Dive(obj, required) == DocOptions.Dive(obj, required)
    decreases obj, 2
  {
    if obj.JObj? && "description" in Keys(obj.fields) && "type" in Keys(obj.fields) {
      var fields := obj.fields;
      var ty := ValueAt(fields, "type");
      if IsStr(ty, "object") && "properties" in Keys(fields) {
        SuboptionsAgree(fields, ValueAt(fields, "properties"));
      } else if IsStr(ty, "array") && "items" in Keys(fields) {
        var items := ValueAt(fields, "items");
        if items.JObj? && "properties" in Keys(items.fields) {
          SuboptionsAgree(items.fields, ValueAt(items.fields, "properties"));
        }
      }
    }
  }

  /** The suboptions of the two walks agree in the same way. */
  lemma {:induction false} SuboptionsAgree(owner: Fields, props: Json)
    ensures Suboptions(owner, props).Ok? <==> DocOptions.Suboptions(owner, props).Ok?
    ensures Suboptions(owner, props).Ok? ==> Suboptions(owner, props) == DocOptions.Suboptions(owner, props)
    decreases props, 1
  {
    if props.JObj? {
      var fields := props.fields;
      var rs := PropResults(owner, fields);
      var qs := DocOptions.PropResults(owner, fields);
      forall i | 0 <= i < |fields|
        ensures rs[i].Ok? <==> qs[i].Ok?
        ensures rs[i].Ok? ==> rs[i].value == qs[i].value
      {
        PropResultAgrees(owner, fields[i].0, fields[i].1);
      }
      AssignAllAlike(Keys(fields), rs, qs, |fields|);
    }
  }

  /** One property converts alike in both walks. */
  lemma {:induction false} PropResultAgrees(owner: Fields, key: string, value: Json)
    ensures PropResult(owner, key, value).Ok? <==> DocOptions.PropResult(owner, key, value).Ok?
    ensures PropResult(owner, key, value).Ok? ==> PropResult(owner, key, value) == DocOptions.PropResult(owner, key, value)
    decreases value, 3
  {
    var required := RequiredIn(owner, key);
    if required.Ok? {
      DiveAgrees(value, required.value);
    }
  }

  /** The script's output is the filter's root node before its
      suboptions are lifted under `options`. */
  lemma ScriptAgrees(data: Json)
    requires DocOptions.ToDocoptions(data).Ok?
    ensures Script(data).Ok? && "suboptions" in Keys(Script(data).value)
    ensures DocOptions.ToDocoptions(data) == Ok([("options", Lookup(Script(data).value, "suboptions").value)])
  {
    var schema := GetItem(data, "schema").value;
    DiveAgrees(schema, false);
    DocOptions.ToDocoptionsRoot(data);
  }
}
