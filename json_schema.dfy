/** What the three JSON-schema walkers (`to_docoptions`, the
    resource-module `to_argspec` and `jref`) read from a schema node in
    the same words. */
module JsonSchema {
  import opened Wrappers
  import opened JsonValue

  /** The scalar `type` names the walkers copy options for. */
  const ScalarTypes: seq<string> := ["str", "bool", "int"]

  /** `obj['type'] in ['str', 'bool', 'int']`: only a string can compare
      equal to one of them. */
  predicate IsScalarType(ty: Json) {
    ty.JStr? && ty.s in ScalarTypes
  }

  /** `bool('required' in obj and key in obj['required'])`: whether the
      property `key` is listed as required by the node `obj`; an
      unsupported `in` raises. */
  function RequiredIn(obj: Fields, key: string): Result<bool> {
    if "required" in Keys(obj) then Contains(ValueAt(obj, "required"), key) else Ok(false)
  }

  // ---------------------------------------------------------------------
  // The documentation options of a scalar node (`to_docoptions`, `jref`)

  /** The keys a scalar node's options can hold, in the order they are
      written. */
  const ScalarKeys: seq<string> := ["description", "default", "choices", "version_added", "required", "type"]

  /** What a scalar node writes, as the conditional assignments
      `result[key] = ...` in source order. */
  function ScalarEntries(fields: Fields, required: bool): (r: seq<Option<Json>>)
    requires "description" in Keys(fields) && "type" in Keys(fields)
    ensures |r| == |ScalarKeys|
  {
    [Some(ValueAt(fields, "description")), Lookup(fields, "default"), Lookup(fields, "enum"),
     Lookup(fields, "version_added"), if required then Some(JBool(true)) else None, Some(ValueAt(fields, "type"))]
  }

  /** The options of a node whose type is `str`, `bool` or `int`. */
  function ScalarOptions(fields: Fields, required: bool): Fields
    requires "description" in Keys(fields) && "type" in Keys(fields)
  {
    Assign(ScalarKeys, ScalarEntries(fields, required), |ScalarKeys|)
  }

  /** The scalar options keep the description and type, copy `default`
      and `version_added`, turn `enum` into `choices`, and carry
      `required: True` exactly when the node is required. */
  lemma ScalarOptionsFacts(obj: Fields, required: bool)
    requires "description" in Keys(obj) && "type" in Keys(obj)
    ensures var r := ScalarOptions(obj, required);
      && Lookup(r, "description") == Some(ValueAt(obj, "description"))
      && Lookup(r, "type") == Some(ValueAt(obj, "type"))
      && Lookup(r, "default") == Lookup(obj, "default")
      && Lookup(r, "choices") == Lookup(obj, "enum")
      && Lookup(r, "version_added") == Lookup(obj, "version_added")
      && ("required" in Keys(r) <==> required)
      && (required ==> Lookup(r, "required") == Some(JBool(true)))
      && (forall k :: k in Keys(r) ==> k in ScalarKeys)
  {
    var entries := ScalarEntries(obj, required);
    ScalarKeysDistinct();
    AssignNamed(ScalarKeys, entries, 0);
    AssignNamed(ScalarKeys, entries, 1);
    AssignNamed(ScalarKeys, entries, 2);
    AssignNamed(ScalarKeys, entries, 3);
    AssignNamed(ScalarKeys, entries, 4);
    AssignNamed(ScalarKeys, entries, 5);
  }

  lemma ScalarKeysDistinct()
    ensures forall a, b :: 0 <= a < b < |ScalarKeys| ==> ScalarKeys[a] != ScalarKeys[b]
  {
  }

  /** A scalar node has no `suboptions`: nested options come only from an
      object or an array. */
  lemma ScalarKeysNoSuboptions()
    ensures "suboptions" !in ScalarKeys
  {
  }
}
