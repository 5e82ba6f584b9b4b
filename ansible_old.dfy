/** The `ansible_old` pyang output plugin: turns the configuration nodes of
    a YANG module into an Ansible option tree (`type`, `description`,
    `required`, `choices`, `suboptions`, ...), resolving typedef chains,
    enumerations, leafrefs, identityrefs and prefixed custom types on the
    way. */
module AnsibleOld {
  import opened Wrappers
  import opened JsonValue
  import opened Yang
  import Text
  import PyangCommon

  /** A module of pyang's context (`i_ctx.modules`), with its prefix. */
  datatype ContextModule = ContextModule(prefix: string, stmt: Stmt)

  /** What `yang_type_to_ansible_type` returns: a type name, or a dict
      holding `type` and extra keys such as `choices` or `max_length`. */
  datatype AnsibleType = Name(name: string) | Dict(fields: Fields)

  // ---------------------------------------------------------------------
  // resolve_base_type

  /** The node the typedef chain of `t` ends at. Each step reads the
      `type` statement of the node's typedef; when that typedef has none,
      the next turn reads `i_typedef` of `None` and raises. */
  function BaseType(t: Stmt): (r: Result<Stmt>)
    ensures r.Ok? ==> Size(r.value) <= Size(t)
    decreases Size(t)
  {
    if t.typedef.None? then Ok(t)
    else
      match SearchOne(t.typedef.value, "type")
      case None => Err(AttributeError)
      case Some(next) =>
        SubstmtSmaller(t.typedef.value, next);
        BaseType(next)
  }

  /** `u` is reached from `t` by following typedefs to their type
      statements. */
  predicate OnChain(t: Stmt, u: Stmt)
    decreases Size(t)
  {
    t == u
    || (t.typedef.Some? && SearchOne(t.typedef.value, "type").Some?
        && (SubstmtSmaller(t.typedef.value, SearchOne(t.typedef.value, "type").value);
            OnChain(SearchOne(t.typedef.value, "type").value, u)))
  }

  /** The chain reaches a typedef that has no `type` statement. */
  predicate Broken(t: Stmt)
    decreases Size(t)
  {
    t.typedef.Some?
    && match SearchOne(t.typedef.value, "type")
       case None => true
       case Some(next) => SubstmtSmaller(t.typedef.value, next); Broken(next)
  }

  /** `resolve_base_type(type_node)`: walks the `i_typedef` chain. */
  method ResolveBaseType(t: Stmt) returns (r: Result<Stmt>)
    ensures r == BaseType(t)
  {
    var node := t;
    while true
      invariant BaseType(node) == BaseType(t)
      decreases Size(node)
    {
      var typedef := node.typedef;
      if typedef.None? {
        break;
      }
      var next := SearchOne(typedef.value, "type");
      if next.None? {
        return Err(AttributeError);
      }
      SubstmtSmaller(typedef.value, next.value);
      node := next.value;
    }
    return Ok(node);
  }

  /** `resolve_base_type` returns exactly the first node of the chain that
      has no typedef: a result is on the chain and typedef-free, and any
      typedef-free node on the chain is the result. */
  lemma {:induction false} BaseTypeIsChainEnd(t: Stmt, u: Stmt)
    ensures BaseType(t) == Ok(u) <==> OnChain(t, u) && u.typedef.None?
    decreases Size(t)
  {
    if t.typedef.Some? {
      var next := SearchOne(t.typedef.value, "type");
      if next.Some? {
        SubstmtSmaller(t.typedef.value, next.value);
        BaseTypeIsChainEnd(next.value, u);
      }
    }
  }

  /** The walk raises exactly when the chain is broken. */
  lemma {:induction false} BaseTypeFails(t: Stmt)
    ensures BaseType(t).Err? <==> Broken(t)
    ensures BaseType(t).Err? ==> BaseType(t).error == AttributeError
    decreases Size(t)
  {
    if t.typedef.Some? {
      var next := SearchOne(t.typedef.value, "type");
      if next.Some? {
        SubstmtSmaller(t.typedef.value, next.value);
        BaseTypeFails(next.value);
      }
    }
  }

  // ---------------------------------------------------------------------
  // Enumerations and custom string types

  /** `handle_enumeration` / `handle_custom_enum`: the enum names, in
      declaration order, as the choices of a string. */
  function Enumeration(t: Stmt): (r: Fields)
  {
    [("type", Str("str")), ("choices", StrList(Args(Search(t, "enum"))))]
  }

  /** `handle_string_custom_type(typedef_node)`: a `length` statement under
      the typedef gives `max_length`, read as the integer after the first
      `..`; without one the type is a plain string. */
  function StringCustomType(typedef: Stmt): (r: Result<Fields>)
  {
    match SearchOne(typedef, "length")
    case None => Ok([("type", Str("str"))])
    case Some(length) =>
      var parts := Text.SplitBy(length.arg, "..");
      if |parts| < 2 then Err(IndexError)
      else
        var n :- Text.ParseInt(parts[1]);
        Ok([("type", Str("str")), ("max_length", JInt(n))])
  }

  /** A length `"a..b"` becomes `max_length = b`; no length leaves a plain
      string type. */
  lemma StringCustomTypeLength(typedef: Stmt, a: string, b: nat)
    requires '.' !in a
    requires SearchOne(typedef, "length").Some? ==> SearchOne(typedef, "length").value.arg == a + ".." + Text.NatToString(b)
    ensures SearchOne(typedef, "length").Some? ==>
      StringCustomType(typedef) == Ok([("type", Str("str")), ("max_length", JInt(b))])
    ensures SearchOne(typedef, "length").None? ==> StringCustomType(typedef) == Ok([("type", Str("str"))])
  {
    if SearchOne(typedef, "length").Some? {
      var digits := Text.NatToString(b);
      assert '.' !in digits by {
        forall i | 0 <= i < |digits| ensures digits[i] != '.' {
          assert Text.IsDigit(digits[i]);
        }
      }
      Text.SplitAround(a, "..", digits);
      Text.ParseNatToString(b);
    }
  }

  /** The first module of the context whose prefix is `prefix` (`next(...,
      None)`). */
  function FindModule(ctx: seq<ContextModule>, prefix: string): (r: Option<ContextModule>)
    ensures r.Some? ==> r.value in ctx && r.value.prefix == prefix
    ensures r.None? ==> forall m :: m in ctx ==> m.prefix != prefix
    ensures r.Some? ==> exists i ::
      0 <= i < |ctx| && ctx[i] == r.value && forall j :: 0 <= j < i ==> ctx[j].prefix != prefix
  {
    if ctx == [] then None
    else if ctx[0].prefix == prefix then Some(ctx[0])
    else
      var r := FindModule(ctx[1..], prefix);
      assert r.Some? ==> exists i ::
        0 <= i < |ctx| && ctx[i] == r.value && forall j :: 0 <= j < i ==> ctx[j].prefix != prefix by {
        if r.Some? {
          var i :| 0 <= i < |ctx[1..]| && ctx[1..][i] == r.value &&
            forall j :: 0 <= j < i ==> ctx[1..][j].prefix != prefix;
          assert ctx[i + 1] == r.value;
          forall j | 0 <= j < i + 1 ensures ctx[j].prefix != prefix {
            if j > 0 { assert ctx[j] == ctx[1..][j - 1]; }
          }
        }
      }
      r
  }

  /** `handle_custom_type` for `prefix:name`: looks the typedef up in the
      module with that prefix. An enumeration typedef yields its choices,
      any other typedef a string type; an unknown module or typedef yields
      nothing. Unpacking the split raises unless there is exactly one
      `:`. */
  function CustomType(ctx: seq<ContextModule>, yangType: string): (r: Result<Option<Fields>>)
  {
    var parts := Text.SplitBy(yangType, ":");
    if |parts| != 2 then Err(ValueError("too many values to unpack (expected 2)"))
    else
      match FindModule(ctx, parts[0])
      case None => Ok(None)
      case Some(m) =>
        match SearchOneArg(m.stmt, "typedef", parts[1])
        case None => Ok(None)
        case Some(typedef) =>
          match SearchOne(typedef, "type")
          case None => Err(AttributeError)
          case Some(t) =>
            if t.arg == "enumeration" then Ok(Some(Enumeration(t)))
            else
              var f :- StringCustomType(typedef);
              Ok(Some(f))
  }

  // ---------------------------------------------------------------------
  // Identities

  /** An identity, its base, its base's base, and so on. */
  function Lineage(i: Identity): (r: seq<Identity>)
    ensures r != [] && r[0] == i
  {
    [i] + if i.base.Some? then Lineage(i.base.value) else []
  }

  /** `is_derived_identity(identity, base_identity)`: follows `.base`
      links from `identity` until it meets the base or runs out. */
  method IsDerivedIdentity(identity: Identity, base: Identity) returns (b: bool)
    ensures b <==> base in Lineage(identity)
  {
    var node := Some(identity);
    while node.Some?
      invariant base in Lineage(identity) <==> node.Some? && base in Lineage(node.value)
      decreases node
    {
      if node.value == base {
        return true;
      }
      node := node.value.base;
    }
    return false;
  }

  /** Derivation is transitive: an identity derived from `b`, where `b`
      derives from `c`, derives from `c`. */
  lemma {:induction false} LineageTransitive(a: Identity, b: Identity, c: Identity)
    requires b in Lineage(a) && c in Lineage(b)
    ensures c in Lineage(a)
    decreases a
  {
    if a != b {
      LineageTransitive(a.base.value, b, c);
    }
  }

  /** The identities of `ids` derived from `base`, in order. */
  function Derived(ids: seq<Identity>, base: Identity): (r: seq<Identity>)
  {
    if ids == [] then []
    else
      var last := ids[|ids| - 1];
      Derived(ids[..|ids| - 1], base) + if base in Lineage(last) then [last] else []
  }

  /** An identity is collected iff it is in the module and derives from the
      base, reflexively: the base itself is among the choices. */
  lemma {:induction false} DerivedMembers(ids: seq<Identity>, base: Identity)
    ensures forall x :: x in Derived(ids, base) <==> x in ids && base in Lineage(x)
    decreases |ids|
  {
    if ids != [] {
      DerivedMembers(ids[..|ids| - 1], base);
      assert ids == ids[..|ids| - 1] + [ids[|ids| - 1]];
    }
  }

  /** What `collect_derived_identities` returns for an identityref scope. */
  function DerivedIn(scope: IdentityScope): seq<Identity> {
    if scope.moduleIdentities.Some? then Derived(scope.moduleIdentities.value, scope.base) else []
  }

  /** `collect_derived_identities(base_identity)`: the identities of the
      base's module that derive from it, in module order. */
  method CollectDerivedIdentities(scope: IdentityScope) returns (derived: seq<Identity>)
    ensures derived == DerivedIn(scope)
  {
    derived := [];
    if scope.moduleIdentities.Some? {
      var ids := scope.moduleIdentities.value;
      for n := 0 to |ids|
        invariant derived == Derived(ids[..n], scope.base)
      {
        var isDerived := IsDerivedIdentity(ids[n], scope.base);
        if isDerived {
          derived := derived + [ids[n]];
        }
        assert ids[..n + 1][..n] == ids[..n];
      }
      assert ids[..|ids|] == ids;
    }
  }

  function Names(ids: seq<Identity>): (r: seq<string>)
    ensures |r| == |ids| && forall i :: 0 <= i < |ids| ==> r[i] == ids[i].name
  {
    seq(|ids|, i requires 0 <= i < |ids| => ids[i].name)
  }

  /** `get_identity_list(type_node)`: the names of the identities derived
      from the identityref's base; none without a base. */
  function IdentityList(t: Stmt): seq<string> {
    if t.identityref.None? then [] else Names(DerivedIn(t.identityref.value))
  }

  /** The identityref choices are the base itself (when its module lists
      it) and every identity of the module that derives from it. */
  lemma IdentityChoices(t: Stmt, name: string)
    requires t.identityref.Some? && t.identityref.value.moduleIdentities.Some?
    ensures name in IdentityList(t) <==> exists x :: (x in t.identityref.value.moduleIdentities.value
      && x.name == name && t.identityref.value.base in Lineage(x))
  {
    var scope := t.identityref.value;
    var ds := Derived(scope.moduleIdentities.value, scope.base);
    DerivedMembers(scope.moduleIdentities.value, scope.base);
    if name in IdentityList(t) {
      var i :| 0 <= i < |ds| && Names(ds)[i] == name;
      assert ds[i] in ds;
    }
    if exists x :: x in scope.moduleIdentities.value && x.name == name && scope.base in Lineage(x) {
      var x :| x in scope.moduleIdentities.value && x.name == name && scope.base in Lineage(x);
      var i :| 0 <= i < |ds| && ds[i] == x;
      assert Names(ds)[i] == name;
    }
  }

  // ---------------------------------------------------------------------
  // yang_type_to_ansible_type

  /** `type_mapping`: the base types translated by name. */
  const TypeMapping: map<string, string> := map[
    "" := "",
    "decimal64" := "float",
    "string" := "str",
    "int16" := "int",
    "int32" := "int",
    "uint8" := "int",
    "uint16" := "int",
    "uint32" := "int",
    "boolean" := "bool",
    "union" := "str"]

  function Unhandled(yangType: string, key: string): Error {
    ValueError("Unhandled YANG type: " + yangType + " on " + key)
  }

  /** `yang_type_to_ansible_type(child)`. The type statement is resolved to
      its base; enumerations, leafrefs and identityrefs have their own
      handlers, a prefixed name is looked up as a custom type, and any
      other name must be in `type_mapping`. A node without a type
      statement is treated as type `str`, which is not mapped. */
  function TypeToAnsible(ctx: seq<ContextModule>, child: Stmt): (r: Result<AnsibleType>)
    decreases Size(child)
  {
    match SearchOne(child, "type")
    case None => Err(Unhandled("str", child.arg))
    case Some(t) =>
      SubstmtSmaller(child, t);
      var base :- BaseType(t);
      var yangType := base.arg;
      if yangType == "enumeration" then Ok(Dict(Enumeration(base)))
      else if yangType == "leafref" then HandleLeafref(ctx, base)
      else if yangType == "identityref" then
        Ok(Dict([("type", Str("str")), ("choices", StrList(IdentityList(base)))]))
      else
        var custom :- if ':' in yangType then CustomType(ctx, yangType) else Ok(None);
        if custom.Some? && custom.value != [] then Ok(Dict(custom.value))
        else if yangType !in TypeMapping then Err(Unhandled(yangType, child.arg))
        else Ok(Name(TypeMapping[yangType]))
  }

  /** `handle_leafref(type_node, key)`: the type of the leaf the pointer
      names; `str` without a pointer, and `str` when reading that leaf's
      type raises `AttributeError`. */
  function HandleLeafref(ctx: seq<ContextModule>, t: Stmt): (r: Result<AnsibleType>)
    decreases Size(t)
  {
    if t.leafref.None? then Ok(Name("str"))
    else
      var target := t.leafref.value;
      if SearchOne(target, "type").None? then Ok(Name("str"))
      else
        match TypeToAnsible(ctx, target)
        case Err(AttributeError) => Ok(Name("str"))
        case other => other
  }

  /** The outcome of `yang_type_to_ansible_type` by the kind of base type:
      enumeration choices in declaration order, `str` for a leafref
      without a pointer, the derived identities for an identityref, the
      mapped name for a mapped type, and `ValueError` for a name that no
      branch handles. */
  lemma TypeToAnsibleCases(ctx: seq<ContextModule>, child: Stmt, t: Stmt, base: Stmt)
    requires SearchOne(child, "type") == Some(t) && BaseType(t) == Ok(base)
    ensures base.arg == "enumeration" ==>
      TypeToAnsible(ctx, child) == Ok(Dict([("type", Str("str")), ("choices", StrList(Args(Search(base, "enum"))))]))
    ensures base.arg == "leafref" && base.leafref.None? ==> TypeToAnsible(ctx, child) == Ok(Name("str"))
    ensures base.arg == "identityref" ==>
      TypeToAnsible(ctx, child) == Ok(Dict([("type", Str("str")), ("choices", StrList(IdentityList(base)))]))
    ensures base.arg !in {"enumeration", "leafref", "identityref"} && ':' !in base.arg ==>
      TypeToAnsible(ctx, child) ==
        if base.arg in TypeMapping then Ok(Name(TypeMapping[base.arg])) else Err(Unhandled(base.arg, child.arg))
  {
  }

  /** A leaf without a type statement is rejected. */
  lemma MissingTypeRaises(ctx: seq<ContextModule>, child: Stmt)
    requires SearchOne(child, "type").None?
    ensures TypeToAnsible(ctx, child) == Err(ValueError("Unhandled YANG type: str on " + child.arg))
  {
    assert "Unhandled YANG type: " + "str" + " on " + child.arg == "Unhandled YANG type: str on " + child.arg;
  }

  /** A type dict: `type: str` first, then only `choices` or
      `max_length`. */
  predicate TypeDictShape(f: Fields) {
    f != [] && f[0] == ("type", Str("str"))
    && forall i :: 1 <= i < |f| ==> f[i].0 == "choices" || f[i].0 == "max_length"
  }

  /** A dict result always carries a `type` key, and a name result is a
      value of `type_mapping` or `str`. */
  lemma {:induction false} TypeToAnsibleShape(ctx: seq<ContextModule>, child: Stmt)
    ensures var r := TypeToAnsible(ctx, child);
      && (r.Ok? && r.value.Dict? ==> TypeDictShape(r.value.fields))
      && (r.Ok? && r.value.Name? ==> r.value.name == "str" || r.value.name in TypeMapping.Values)
    decreases Size(child), 1
  {
    var t := SearchOne(child, "type");
    if t.Some? {
      SubstmtSmaller(child, t.value);
      var base := BaseType(t.value);
      if base.Ok? {
        var y := base.value.arg;
        if y == "enumeration" {
          assert TypeToAnsible(ctx, child) == Ok(Dict(Enumeration(base.value)));
          EnumerationShape(base.value);
        } else if y == "leafref" {
          assert TypeToAnsible(ctx, child) == HandleLeafref(ctx, base.value);
          LeafrefShape(ctx, base.value);
        } else if y != "identityref" {
          var custom := if ':' in y then CustomType(ctx, y) else Ok(None);
          if ':' in y {
            CustomTypeShape(ctx, y);
          }
          if custom.Ok? && custom.value.Some? && custom.value.value != [] {
            assert TypeToAnsible(ctx, child) == Ok(Dict(custom.value.value));
          } else if custom.Ok? && y in TypeMapping {
            assert TypeToAnsible(ctx, child) == Ok(Name(TypeMapping[y]));
          }
        }
      }
    }
  }

  lemma {:induction false} LeafrefShape(ctx: seq<ContextModule>, t: Stmt)
    ensures var r := HandleLeafref(ctx, t);
      && (r.Ok? && r.value.Dict? ==> TypeDictShape(r.value.fields))
      && (r.Ok? && r.value.Name? ==> r.value.name == "str" || r.value.name in TypeMapping.Values)
    decreases Size(t), 0
  {
    if t.leafref.Some? && SearchOne(t.leafref.value, "type").Some? {
      TypeToAnsibleShape(ctx, t.leafref.value);
    }
  }

  lemma CustomTypeShape(ctx: seq<ContextModule>, yangType: string)
    ensures var r := CustomType(ctx, yangType);
      r.Ok? && r.value.Some? ==> TypeDictShape(r.value.value)
  {
    var parts := Text.SplitBy(yangType, ":");
    if |parts| == 2 {
      var m := FindModule(ctx, parts[0]);
      if m.Some? {
        var typedef := SearchOneArg(m.value.stmt, "typedef", parts[1]);
        if typedef.Some? {
          var t := SearchOne(typedef.value, "type");
          if t.Some? {
            if t.value.arg == "enumeration" {
              EnumerationShape(t.value);
            } else {
              StringCustomTypeShape(typedef.value);
              assert CustomType(ctx, yangType) == (var f :- StringCustomType(typedef.value); Ok(Some(f)));
            }
          }
        }
      }
    }
  }

  lemma EnumerationShape(t: Stmt)
    ensures TypeDictShape(Enumeration(t))
  {
  }

  lemma StringCustomTypeShape(typedef: Stmt)
    ensures StringCustomType(typedef).Ok? ==> TypeDictShape(StringCustomType(typedef).value)
  {
  }

  // ---------------------------------------------------------------------
  // yang_to_dict

  /** The option name of a node: `-` becomes `_`. */
  function KeyName(arg: string): (r: string)
    ensures '-' !in r
  {
    var r := Text.ReplaceChar(arg, '-', '_');
    assert forall i :: 0 <= i < |r| ==> r[i] != '-';
    r
  }

  predicate Deprecated(c: Stmt) {
    SearchOne(c, "status").Some? && SearchOne(c, "status").value.arg == "deprecated"
  }

  /** `required`: whether a `mandatory` substatement says `"true"`. */
  predicate Mandatory(c: Stmt) {
    SearchOne(c, "mandatory").Some? && SearchOne(c, "mandatory").value.arg == "true"
  }

  /** The preprocessed description, or `""` without one. */
  function Description(c: Stmt): string {
    match SearchOne(c, "description")
    case Some(d) => PyangCommon.PreprocessString(d.arg)
    case None => ""
  }

  /** The nodes the converter emits: configuration leaves, leaf-lists,
      containers, lists and choices that are not deprecated. */
  predicate Kept(c: Stmt) {
    !Deprecated(c) && c.config && c.keyword in ["leaf", "leaf-list", "container", "list", "choice"]
  }

  /** `data[key_name][key] = value` for every key of the type dict but
      `type`, in order. */
  function MergeExtras(entry: Fields, extras: Fields): Fields
    decreases |extras|
  {
    if extras == [] then entry
    else
      var next := if extras[0].0 != "type" then Put(entry, extras[0].0, extras[0].1) else entry;
      MergeExtras(next, extras[1..])
  }

  /** The dict written for a leaf or leaf-list: its type, description and
      `required`, then the type dict's other keys. */
  function LeafEntry(c: Stmt, t: AnsibleType): Result<Json> {
    var head := (ty: Json) => [("type", ty), ("description", Str(Description(c))), ("required", JBool(Mandatory(c)))];
    match t
    case Name(n) => Ok(JObj(head(Str(n))))
    case Dict(f) =>
      match Lookup(f, "type")
      case None => Err(KeyError("type"))
      case Some(ty) => Ok(JObj(MergeExtras(head(ty), f)))
  }

  /** The dict written for a container or list. */
  function NodeEntry(c: Stmt, suboptions: Fields): Json {
    var fields := [("type", Str(if c.keyword == "list" then "list" else "dict")),
      ("suboptions", JObj(suboptions)), ("description", Str(Description(c)))];
    JObj(if c.keyword == "list" then fields + [("elements", Str("dict"))] else fields)
  }

  /** The dict written for a choice: its case names as choices. */
  function ChoiceEntry(c: Stmt): Json {
    JObj([("type", Str("str")), ("description", Str(Description(c))), ("choices", StrList(Args(c.children)))])
  }

  /** What one loop turn of `yang_to_dict` writes for `child`: nothing for
      a skipped node. */
  function Entry(ctx: seq<ContextModule>, child: Stmt): Result<Option<Json>>
    decreases child, 3
  {
    if Kept(child) then
      var e :- KeptEntry(ctx, child);
      Ok(Some(e))
    else Ok(None)
  }

  /** The entry of a kept node, by its keyword. */
  function KeptEntry(ctx: seq<ContextModule>, child: Stmt): Result<Json>
    requires Kept(child)
    decreases child, 2
  {
    if child.keyword in ["leaf", "leaf-list"] then
      var t :- TypeToAnsible(ctx, child);
      LeafEntry(child, t)
    else if child.keyword in ["container", "list"] then
      var sub :- Fold(ctx, child, |child.children|);
      Ok(NodeEntry(child, sub))
    else Ok(ChoiceEntry(child))
  }

  /** The dict `yang_to_dict(s)` holds after visiting its first `n`
      children; the first failure is the one raised. */
  function Fold(ctx: seq<ContextModule>, s: Stmt, n: nat): Result<Fields>
    requires n <= |s.children|
    decreases s, 1, n
  {
    if n == 0 then Ok([])
    else
      var data :- Fold(ctx, s, n - 1);
      var child := s.children[n - 1];
      var e :- Entry(ctx, child);
      Ok(if e.Some? then Put(data, KeyName(child.arg), e.value) else data)
  }

  /** A failure while visiting the first `n` children is the result. */
  lemma {:induction false} FoldFails(ctx: seq<ContextModule>, s: Stmt, n: nat, m: nat)
    requires n <= m <= |s.children| && Fold(ctx, s, n).Err?
    ensures Fold(ctx, s, m) == Fold(ctx, s, n)
    decreases m
  {
    if m > n {
      FoldFails(ctx, s, n, m - 1);
    }
  }

  /** What `yang_to_dict(s, path)` returns. */
  function Convert(ctx: seq<ContextModule>, s: Stmt): Result<Fields> {
    Fold(ctx, s, |s.children|)
  }

  /** `yang_to_dict(yang_module, path)`: one entry per kept child. */
  method YangToDict(ctx: seq<ContextModule>, s: Stmt) returns (r: Result<Fields>)
    ensures r == Convert(ctx, s)
    decreases s, 1
  {
    var data: Fields := [];
    for n := 0 to |s.children|
      invariant Fold(ctx, s, n) == Ok(data)
    {
      var next := VisitChild(ctx, s, n, data);
      if next.Err? {
        FoldFails(ctx, s, n + 1, |s.children|);
        return next;
      }
      data := next.value;
    }
    return Ok(data);
  }

  /** One loop turn of `yang_to_dict`: `data[key] = entry` for a kept
      child, or the error its conversion raises. */
  method VisitChild(ctx: seq<ContextModule>, s: Stmt, n: nat, data: Fields) returns (r: Result<Fields>)
    requires n < |s.children| && Fold(ctx, s, n) == Ok(data)
    ensures r == Fold(ctx, s, n + 1)
    decreases s, 0
  {
    var child := s.children[n];
    var e := ChildEntry(ctx, child);
    if e.Err? {
      return Err(e.error);
    }
    if e.value.Some? {
      return Ok(Put(data, KeyName(child.arg), e.value.value));
    }
    return Ok(data);
  }

  /** One loop turn of `yang_to_dict` for `child`. */
  method ChildEntry(ctx: seq<ContextModule>, child: Stmt) returns (r: Result<Option<Json>>)
    ensures r == Entry(ctx, child)
    decreases child, 2
  {
    var status := SearchOne(child, "status");
    if status.Some? && status.value.arg == "deprecated" {
      return Ok(None);
    }
    if child.keyword in ["leaf", "leaf-list"] {
      if child.config {
        var t := TypeToAnsible(ctx, child);
        if t.Err? {
          return Err(t.error);
        }
        var e := LeafEntry(child, t.value);
        if e.Err? {
          return Err(e.error);
        }
        return Ok(Some(e.value));
      }
    } else if child.keyword in ["container", "list"] {
      if child.config {
        var sub := YangToDict(ctx, child);
        if sub.Err? {
          return Err(sub.error);
        }
        return Ok(Some(NodeEntry(child, sub.value)));
      }
    } else if child.keyword == "choice" {
      if child.config {
        return Ok(Some(ChoiceEntry(child)));
      }
    }
    return Ok(None);
  }

  // ---------------------------------------------------------------------
  // What yang_to_dict promises

  /** A child gets an entry exactly when it is kept. */
  lemma EntryKept(ctx: seq<ContextModule>, child: Stmt)
    requires Entry(ctx, child).Ok?
    ensures Entry(ctx, child).value.Some? <==> Kept(child)
  {
  }

  /** The key names of the children, in order. */
  function ChildKeys(s: Stmt): (r: seq<string>)
    ensures |r| == |s.children| && forall i :: 0 <= i < |r| ==> r[i] == KeyName(s.children[i].arg)
  {
    seq(|s.children|, i requires 0 <= i < |s.children| => KeyName(s.children[i].arg))
  }

  /** What a child writes, reading a failure as nothing. */
  function Outcome(ctx: seq<ContextModule>, c: Stmt): Option<Json> {
    match Entry(ctx, c)
    case Ok(e) => e
    case Err(_) => None
  }

  /** What each child writes, in order. */
  function Outcomes(ctx: seq<ContextModule>, s: Stmt): (r: seq<Option<Json>>)
    ensures |r| == |s.children| && forall i :: 0 <= i < |r| ==> r[i] == Outcome(ctx, s.children[i])
  {
    seq(|s.children|, i requires 0 <= i < |s.children| => Outcome(ctx, s.children[i]))
  }

  /** A loop that raises nothing is the plain dict-building loop over the
      children's key names and entries. */
  lemma {:induction false} FoldAssign(ctx: seq<ContextModule>, s: Stmt, n: nat)
    requires n <= |s.children| && Fold(ctx, s, n).Ok?
    ensures Fold(ctx, s, n).value == Assign(ChildKeys(s), Outcomes(ctx, s), n)
    decreases n
  {
    if n > 0 {
      FoldStep(ctx, s, n);
      FoldAssign(ctx, s, n - 1);
    }
  }

  /** A loop that raises nothing converted every child it visited without
      error. */
  lemma {:induction false} FoldEntryOk(ctx: seq<ContextModule>, s: Stmt, n: nat, i: nat)
    requires i < n <= |s.children| && Fold(ctx, s, n).Ok?
    ensures Entry(ctx, s.children[i]).Ok?
    decreases n
  {
    FoldStep(ctx, s, n);
    if i < n - 1 {
      FoldEntryOk(ctx, s, n - 1, i);
    }
  }

  /** One more turn of the loop: the entry of child `n - 1`, if any, is
      written under its key name. */
  lemma FoldStep(ctx: seq<ContextModule>, s: Stmt, n: nat)
    requires 0 < n <= |s.children| && Fold(ctx, s, n).Ok?
    ensures Fold(ctx, s, n - 1).Ok? && Entry(ctx, s.children[n - 1]).Ok?
    ensures var e := Entry(ctx, s.children[n - 1]).value;
      Fold(ctx, s, n).value ==
        if e.Some? then Put(Fold(ctx, s, n - 1).value, KeyName(s.children[n - 1].arg), e.value)
        else Fold(ctx, s, n - 1).value
  {
  }

  /** What the converter promises about the result: keys exactly those of
      the kept children, each value the entry of a child with that key. */
  lemma ConvertKeys(ctx: seq<ContextModule>, s: Stmt, k: string)
    requires Convert(ctx, s).Ok?
    ensures k in Keys(Convert(ctx, s).value) <==> exists c :: c in s.children && Kept(c) && KeyName(c.arg) == k
    ensures k in Keys(Convert(ctx, s).value) ==> exists c :: (c in s.children && KeyName(c.arg) == k
      && Entry(ctx, c) == Ok(Lookup(Convert(ctx, s).value, k)))
  {
    var n := |s.children|;
    var names := ChildKeys(s);
    var entries := Outcomes(ctx, s);
    FoldAssign(ctx, s, n);
    AssignKeys(names, entries, n);
    if exists c :: c in s.children && Kept(c) && KeyName(c.arg) == k {
      var c :| c in s.children && Kept(c) && KeyName(c.arg) == k;
      var i :| 0 <= i < n && s.children[i] == c;
      FoldEntryOk(ctx, s, n, i);
      EntryKept(ctx, c);
      assert Written(names, entries, n, k);
    }
    if k in Keys(Convert(ctx, s).value) {
      assert Written(names, entries, n, k);
      var i :| 0 <= i < n && entries[i].Some? && names[i] == k;
      FoldEntryOk(ctx, s, n, i);
      EntryKept(ctx, s.children[i]);
      assert s.children[i] in s.children;
      ConvertValue(ctx, s, k);
    }
  }

  /** The value under a key of the result is the entry of a child with
      that key name. */
  lemma ConvertValue(ctx: seq<ContextModule>, s: Stmt, k: string)
    requires Convert(ctx, s).Ok? && k in Keys(Convert(ctx, s).value)
    ensures exists c :: (c in s.children && KeyName(c.arg) == k
      && Entry(ctx, c) == Ok(Lookup(Convert(ctx, s).value, k)))
  {
    var n := |s.children|;
    var names := ChildKeys(s);
    var entries := Outcomes(ctx, s);
    FoldAssign(ctx, s, n);
    AssignValues(names, entries, n);
    var v := Lookup(Convert(ctx, s).value, k).value;
    assert WrittenWith(names, entries, n, k, v);
    var i :| 0 <= i < n && entries[i] == Some(v) && names[i] == k;
    assert s.children[i] in s.children;
  }

  /** The entry of a kept leaf starts with its type, its description and
      `required`, true iff `mandatory` is `"true"`; the extra keys of a
      type dict follow. */
  lemma LeafEntryRequired(ctx: seq<ContextModule>, child: Stmt)
    requires Kept(child) && child.keyword in ["leaf", "leaf-list"]
    requires Entry(ctx, child).Ok?
    ensures var e := Entry(ctx, child).value.value;
      && e.JObj? && |e.fields| >= 3
      && e.fields[1] == ("description", Str(Description(child)))
      && e.fields[2] == ("required", JBool(Mandatory(child)))
      && e.fields[0].0 == "type"
  {
    var t := TypeToAnsible(ctx, child).value;
    TypeToAnsibleShape(ctx, child);
    LeafEntryHead(child, t);
  }

  lemma LeafEntryHead(c: Stmt, t: AnsibleType)
    requires t.Dict? ==> TypeDictShape(t.fields)
    ensures var e := LeafEntry(c, t);
      && e.Ok? && e.value.JObj? && |e.value.fields| >= 3
      && e.value.fields[1] == ("description", Str(Description(c)))
      && e.value.fields[2] == ("required", JBool(Mandatory(c)))
      && e.value.fields[0].0 == "type"
  {
    if t.Dict? {
      var f := t.fields;
      assert Lookup(f, "type") == Some(Str("str")) by {
        assert "type" in Keys(f);
        assert KeyIndex(f, "type") == 0;
      }
      var head := [("type", Str("str")), ("description", Str(Description(c))), ("required", JBool(Mandatory(c)))];
      MergeExtrasPrefix(head, f);
    }
  }

  /** Merging extras whose keys are not `description` or `required` keeps
      the first three entries. */
  lemma {:induction false} MergeExtrasPrefix(entry: Fields, extras: Fields)
    requires |entry| >= 3 && entry[1].0 == "description" && entry[2].0 == "required" && entry[0].0 == "type"
    requires forall i :: 0 <= i < |extras| ==> extras[i].0 !in ["description", "required"]
    ensures |MergeExtras(entry, extras)| >= 3 && MergeExtras(entry, extras)[..3] == entry[..3]
    decreases |extras|
  {
    if extras != [] {
      var k := extras[0].0;
      var next := if k != "type" then Put(entry, k, extras[0].1) else entry;
      if k != "type" && k in Keys(entry) {
        assert KeyIndex(entry, k) >= 3;
      }
      assert next[..3] == entry[..3];
      assert extras[0] in extras;
      MergeExtrasPrefix(next, extras[1..]);
    }
  }

  /** A kept list is a `list` with `elements: dict`; a kept container a
      `dict`; both carry the converted children as `suboptions`. */
  lemma NodeEntryShape(ctx: seq<ContextModule>, child: Stmt)
    requires Kept(child) && child.keyword in ["container", "list"]
    requires Entry(ctx, child).Ok?
    ensures Convert(ctx, child).Ok?
    ensures Entry(ctx, child).value == Some(JObj(
      [("type", Str(if child.keyword == "list" then "list" else "dict")),
       ("suboptions", JObj(Convert(ctx, child).value)),
       ("description", Str(Description(child)))]
      + if child.keyword == "list" then [("elements", Str("dict"))] else []))
  {
    assert child.keyword !in ["leaf", "leaf-list"];
    var sub := Convert(ctx, child).value;
    assert Entry(ctx, child) == Ok(Some(NodeEntry(child, sub)));
    var fields := [("type", Str(if child.keyword == "list" then "list" else "dict")),
      ("suboptions", JObj(sub)), ("description", Str(Description(child)))];
    assert fields + [] == fields;
  }

  /** A kept choice is a `str` whose choices are its case names. */
  lemma ChoiceEntryShape(ctx: seq<ContextModule>, child: Stmt)
    requires Kept(child) && child.keyword == "choice"
    ensures Entry(ctx, child) == Ok(Some(JObj([("type", Str("str")), ("description", Str(Description(child))),
      ("choices", StrList(Args(child.children)))])))
  {
  }

  // ---------------------------------------------------------------------
  // process_module

  /** The key order `process_module` applies before dumping. */
  const OutputOrder: seq<string> := ["description", "type", "elements", "choices", "suboptions"]

  /** `process_module`: the converted module with its keys ordered. */
  method ProcessModule(ctx: seq<ContextModule>, module_: Stmt) returns (r: Result<Fields>)
    ensures Convert(ctx, module_).Ok? ==> r == Ok(PyangCommon.OrderFields(Convert(ctx, module_).value, OutputOrder))
    ensures Convert(ctx, module_).Err? ==> r == Convert(ctx, module_)
  {
    var data := YangToDict(ctx, module_);
    if data.Err? {
      return data;
    }
    var ordered := PyangCommon.OrderDict(data.value, OutputOrder);
    return Ok(ordered);
  }
}
