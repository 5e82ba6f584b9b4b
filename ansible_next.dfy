/** The `ansible_next.py` pyang plugin: it turns the data nodes of a YANG
    module into a nested dict of Ansible options. Containers and lists
    become dicts with `suboptions`, a leaf becomes `{name: type}`, the cases
    of a choice are flattened into the enclosing dict (section 7.9.2 of
    RFC 6020), and member names are qualified with a module prefix where
    section 4 of RFC 7951 asks for one.

    The plugin reads two tables of the pyang library: the data-definition
    keywords and the names of the built-in types. Both are given here as a
    `Pyang` value. A node's parent is described by a `Parent` value, since
    statements here do not point back to their parents. */
module AnsibleNext {
  import opened Wrappers
  import opened JsonValue
  import opened Yang
  import Text
  import PyangCommon

  /** `statements.data_definition_keywords` and the type names for which
      `types.is_base_type` holds. */
  datatype Pyang = Pyang(dataDefinitionKeywords: set<string>, baseTypes: set<string>)

  /** What a producer reads of `stmt.parent`: its keyword, its `top.arg`,
      and whether it is the module itself (its own parent is `None`). */
  datatype Parent = Parent(keyword: string, top: string, isModule: bool)

  /** The parent a child of `s` sees. */
  function Under(s: Stmt): Parent {
    Parent(s.keyword, s.top, false)
  }

  /** The keywords of the `producers` table. */
  const Producers: set<string> := {"container", "list", "leaf-list", "leaf", "choice"}

  /** The keywords a choice takes as short-form cases. */
  const ShortCases: set<string> := {"container", "leaf", "list", "leaf-list"}

  /** `_numeric_type_trans_tbl`, first column: every integer type is
      `int`. */
  const NumericTypes: map<string, string> := map[
    "int8" := "int", "int16" := "int", "int32" := "int", "int64" := "int",
    "uint8" := "int", "uint16" := "int", "uint32" := "int", "uint64" := "int"]

  /** The keys of `_other_type_trans_tbl`. */
  const OtherTypes: set<string> := {"string", "enumeration", "bits", "boolean", "empty", "union",
    "instance-identifier", "leafref"}

  /** A dict holding only `type`. */
  function TypeDict(name: string): Fields {
    [("type", Str(name))]
  }

  // ---------------------------------------------------------------------
  // produce_type and the *_trans functions

  /** What `produce_type(type_stmt)` returns for a present `type`
      statement. */
  function TypeSpec(env: Pyang, t: Stmt): Result<Fields>
    decreases Size(t), 3
  {
    if t.arg in env.baseTypes then
      if t.arg in NumericTypes then Ok(TypeDict(NumericTypes[t.arg]))
      else if t.arg in OtherTypes then OtherSpec(env, t)
      else Ok(TypeDict("string"))
    else if t.typedef.Some? then
      match SearchOne(t.typedef.value, "type")
      case None => Err(AttributeError)
      case Some(tt) =>
        SubstmtSmaller(t.typedef.value, tt);
        TypeSpec(env, tt)
    else Ok(TypeDict("string"))
  }

  /** `other_type_trans(type_id, type_stmt)`. */
  function OtherSpec(env: Pyang, t: Stmt): Result<Fields>
    requires t.arg in OtherTypes
    decreases Size(t), 2
  {
    match t.arg
    case "enumeration" => Ok(Enumeration(t))
    case "boolean" => Ok(TypeDict("boolean"))
    case "empty" => Ok([("type", Str("list")), ("suboptions", JList([JObj(TypeDict("null"))]))])
    case "union" =>
      var members :- AppendAll(UnionResults(env, t), |Search(t, "type")|);
      Ok([("oneOf", JList(members))])
    case _ => Ok(TypeDict("str"))
  }

  /** `enumeration_trans`: the enum names in declaration order. */
  function Enumeration(t: Stmt): Fields {
    [("type", Str("str")), ("choices", StrList(Args(Search(t, "enum"))))]
  }

  /** What `produce_type` gives for each member type of a union, in
      order. */
  function UnionResults(env: Pyang, t: Stmt): (r: seq<Option<Result<Fields>>>)
    ensures |r| == |Search(t, "type")|
    decreases Size(t), 1
  {
    var members := Search(t, "type");
    seq(|members|, i requires 0 <= i < |members| => MemberResult(env, t, members[i]))
  }

  /** The translation of one member type of a union. */
  function MemberResult(env: Pyang, t: Stmt, member: Stmt): Option<Result<Fields>>
    requires member in Search(t, "type")
    decreases Size(t), 0
  {
    SubstmtSmaller(t, member);
    Some(TypeSpec(env, member))
  }

  /** `produce_type` on what `search_one("type")` returned: reading the
      argument of a missing statement raises `AttributeError`. */
  function TypeOf(env: Pyang, t: Option<Stmt>): Result<Fields> {
    if t.None? then Err(AttributeError) else TypeSpec(env, t.value)
  }

  /** `produce_type(type_stmt)`. */
  method ProduceType(env: Pyang, t: Option<Stmt>) returns (r: Result<Fields>)
    ensures r == TypeOf(env, t)
    decreases if t.Some? then Size(t.value) else 0, 3
  {
    if t.None? {
      return Err(AttributeError);
    }
    var typeId := t.value.arg;
    if typeId in env.baseTypes {
      if typeId in NumericTypes {
        r := Ok(NumericTypeTrans(typeId));
      } else if typeId in OtherTypes {
        r := OtherTypeTrans(env, t.value);
      } else {
        r := Ok(TypeDict("string"));
      }
    } else if t.value.typedef.Some? {
      var typedefType := SearchOne(t.value.typedef.value, "type");
      if typedefType.Some? {
        SubstmtSmaller(t.value.typedef.value, typedefType.value);
      }
      r := ProduceType(env, typedefType);
    } else {
      r := Ok(TypeDict("string"));
    }
  }

  /** `numeric_type_trans(dtype)`. */
  function NumericTypeTrans(dtype: string): (r: Fields)
    requires dtype in NumericTypes
    ensures r == TypeDict("int")
  {
    TypeDict(NumericTypes[dtype])
  }

  /** `other_type_trans(dtype, stmt)`: the translation the table names. */
  method OtherTypeTrans(env: Pyang, t: Stmt) returns (r: Result<Fields>)
    requires t.arg in OtherTypes
    ensures r == OtherSpec(env, t)
    decreases Size(t), 2
  {
    match t.arg
    case "enumeration" =>
      var e := EnumerationTrans(t);
      r := Ok(e);
    case "boolean" =>
      r := Ok(TypeDict("boolean"));
    case "empty" =>
      r := Ok([("type", Str("list")), ("suboptions", JList([JObj(TypeDict("null"))]))]);
    case "union" =>
      r := UnionTrans(env, t);
    case _ =>
      r := Ok(TypeDict("str"));
  }

  /** `enumeration_trans(stmt)`: appends each enum name to `choices`. */
  method EnumerationTrans(t: Stmt) returns (r: Fields)
    ensures r == [("type", Str("str")), ("choices", StrList(Args(Search(t, "enum"))))]
  {
    var enums := Search(t, "enum");
    var choices: seq<Json> := [];
    for i := 0 to |enums|
      invariant |choices| == i && forall j :: 0 <= j < i ==> choices[j] == Str(enums[j].arg)
    {
      choices := choices + [Str(enums[i].arg)];
    }
    assert choices == StrList(Args(enums)).items;
    r := [("type", Str("str")), ("choices", JList(choices))];
  }

  /** `union_trans(stmt)`: one `oneOf` entry per member type, in order. */
  method UnionTrans(env: Pyang, t: Stmt) returns (r: Result<Fields>)
    requires t.arg == "union"
    ensures r == OtherSpec(env, t)
    decreases Size(t), 1
  {
    var members := Search(t, "type");
    var oneOf: seq<Json> := [];
    for i := 0 to |members|
      invariant AppendAll(UnionResults(env, t), i) == Ok(oneOf)
    {
      var m := UnionMember(env, t, i);
      if m.Err? {
        AppendAllFails(UnionResults(env, t), i + 1, |members|);
        return Err(m.error);
      }
      oneOf := oneOf + [JObj(m.value)];
    }
    r := Ok([("oneOf", JList(oneOf))]);
  }

  /** One turn of `union_trans`. */
  method UnionMember(env: Pyang, t: Stmt, i: nat) returns (r: Result<Fields>)
    requires i < |Search(t, "type")|
    ensures UnionResults(env, t)[i] == Some(r)
    decreases Size(t), 0
  {
    var member := Search(t, "type")[i];
    SubstmtSmaller(t, member);
    r := ProduceType(env, Some(member));
  }

  // ---------------------------------------------------------------------
  // qualify_name

  /** `qualify_name(stmt)`: `module:name` for a top-level node,
      `top:name` when the node comes from another (sub)module than its
      parent, the plain name otherwise. */
  function QualifyName(p: Parent, s: Stmt): string {
    if p.isModule then s.moduleName + ":" + s.arg
    else if s.top != p.top then s.top + ":" + s.arg
    else s.arg
  }

  // ---------------------------------------------------------------------
  // The producers: what each returns

  /** What `producers[s.keyword](s)` returns for a node under `p`. */
  function Produce(env: Pyang, p: Parent, s: Stmt): Result<Fields>
    requires s.keyword in Producers
    decreases s, 3
  {
    match s.keyword
    case "container" => ContainerSpec(env, p, s)
    case "list" => ListSpec(env, p, s)
    case "leaf-list" => LeafListSpec(env, p, s)
    case "leaf" => LeafSpec(env, p, s)
    case _ => ChoiceSpec(env, s)
  }

  /** What the producers give for the children of `owner`: `None` for a
      child without a producer. */
  function ChildResults(env: Pyang, owner: Stmt): (r: seq<Option<Result<Fields>>>)
    ensures |r| == |owner.children|
    decreases owner, 1
  {
    seq(|owner.children|, i requires 0 <= i < |owner.children| =>
      if owner.children[i].keyword in Producers then Some(Produce(env, Under(owner), owner.children[i])) else None)
  }

  /** What the producers give for the short-form cases among the
      substatements of a choice. */
  function ShortResults(env: Pyang, s: Stmt): (r: seq<Option<Result<Fields>>>)
    ensures |r| == |s.substmts|
    decreases s, 1
  {
    seq(|s.substmts|, i requires 0 <= i < |s.substmts| =>
      if s.substmts[i].keyword in ShortCases then Some(Produce(env, Under(s), s.substmts[i])) else None)
  }

  /** The results of the children of each case of a choice. */
  function CaseGroups(env: Pyang, s: Stmt): (r: seq<seq<Option<Result<Fields>>>>)
    ensures |r| == |Search(s, "case")|
    decreases s, 1
  {
    var cases := Search(s, "case");
    seq(|cases|, j requires 0 <= j < |cases| => CaseResults(env, s, cases[j]))
  }

  function CaseResults(env: Pyang, s: Stmt, c: Stmt): seq<Option<Result<Fields>>>
    requires c in Search(s, "case")
    decreases s, 0
  {
    ChildResults(env, c)
  }

  /** The dict a container or list node describes itself with, placed as
      `{name: node}` under a non-list parent and as
      `{"type": "dict", "suboptions": {name: node}}` under a list. */
  function Nest(p: Parent, name: string, node: Fields): Fields {
    if p.keyword != "list" then [(name, JObj(node))]
    else [("type", Str("dict")), ("suboptions", JObj([(name, JObj(node))]))]
  }

  /** `produce_container(stmt)`. */
  function ContainerSpec(env: Pyang, p: Parent, s: Stmt): Result<Fields>
    decreases s, 2
  {
    var sub :- MergeAll([], ChildResults(env, s), |s.children|);
    Ok(Nest(p, QualifyName(p, s), [("type", Str("dict")), ("suboptions", JObj(sub))]))
  }

  /** `produce_list(stmt)`: reading the description of a list without one
      raises `AttributeError` unless the parent is a list. */
  function ListSpec(env: Pyang, p: Parent, s: Stmt): Result<Fields>
    decreases s, 2
  {
    var name := QualifyName(p, s);
    if p.keyword != "list" then
      match SearchOne(s, "description")
      case None => Err(AttributeError)
      case Some(d) =>
        var items :- AppendAll(ChildResults(env, s), |s.children|);
        Ok(Nest(p, name, [("type", Str("list")), ("description", Str(PyangCommon.PreprocessString(d.arg))),
          ("elements", Str("dict")), ("suboptions", JList(items))]))
    else
      var items :- AppendAll(ChildResults(env, s), |s.children|);
      Ok(Nest(p, name, [("type", Str("list")), ("suboptions", JList(items))]))
  }

  /** `produce_leaf_list(stmt)`: a built-in or table type is translated;
      any other type gives a list of plain strings. */
  function LeafListSpec(env: Pyang, p: Parent, s: Stmt): Result<Fields>
    decreases s, 2
  {
    var name := QualifyName(p, s);
    match SearchOne(s, "type")
    case None => Err(AttributeError)
    case Some(t) =>
      if t.arg in env.baseTypes || t.arg in OtherTypes then
        var ty :- TypeSpec(env, t);
        Ok([(name, JObj([("type", Str("list")), ("elements", Str("dict")), ("suboptions", JList([JObj(ty)]))]))])
      else Ok([(name, JObj([("type", Str("list")), ("suboptions", JList([JObj(TypeDict("str"))]))]))])
  }

  /** `produce_leaf(stmt)`. */
  function LeafSpec(env: Pyang, p: Parent, s: Stmt): Result<Fields>
    decreases s, 2
  {
    var ty :- TypeOf(env, SearchOne(s, "type"));
    Ok([(QualifyName(p, s), JObj(ty))])
  }

  /** `produce_choice(stmt)`: the children of every case, then the
      short-form cases, merged into one dict. */
  function ChoiceSpec(env: Pyang, s: Stmt): Result<Fields>
    decreases s, 2
  {
    var long :- MergeGroups(CaseGroups(env, s), |Search(s, "case")|);
    MergeAll(long, ShortResults(env, s), |s.substmts|)
  }

  /** The parent the children of the root module see. */
  function AtRoot(root: Stmt): Parent {
    Parent(root.keyword, root.top, true)
  }

  /** What the producers give for the children of the root module: only
      data-definition nodes with a producer contribute. */
  function RootResults(env: Pyang, root: Stmt): (r: seq<Option<Result<Fields>>>)
    ensures |r| == |root.children|
  {
    seq(|root.children|, i requires 0 <= i < |root.children| =>
      var c := root.children[i];
      if c.keyword in env.dataDefinitionKeywords && c.keyword in Producers then Some(Produce(env, AtRoot(root), c))
      else None)
  }

  /** What `produce_schema(root)` returns. */
  function Schema(env: Pyang, root: Stmt): Result<Fields> {
    MergeAll([], RootResults(env, root), |root.children|)
  }

  // ---------------------------------------------------------------------
  // The producers as the plugin runs them

  /** `producers[s.keyword](s)`. */
  method Producer(env: Pyang, p: Parent, s: Stmt) returns (r: Result<Fields>)
    requires s.keyword in Producers
    ensures r == Produce(env, p, s)
    decreases s, 3
  {
    match s.keyword
    case "container" =>
      r := ProduceContainer(env, p, s);
    case "list" =>
      r := ProduceList(env, p, s);
    case "leaf-list" =>
      r := ProduceLeafList(env, p, s);
    case "leaf" =>
      r := ProduceLeaf(env, p, s);
    case _ =>
      r := ProduceChoice(env, s);
  }

  /** `produce_container(stmt)`. */
  method ProduceContainer(env: Pyang, p: Parent, s: Stmt) returns (r: Result<Fields>)
    ensures r == ContainerSpec(env, p, s)
    decreases s, 2
  {
    var name := QualifyName(p, s);
    var sub := MergeChildren(env, s, []);
    if sub.Err? {
      return Err(sub.error);
    }
    r := Ok(Nest(p, name, [("type", Str("dict")), ("suboptions", JObj(sub.value))]));
  }

  /** `produce_list(stmt)`. */
  method ProduceList(env: Pyang, p: Parent, s: Stmt) returns (r: Result<Fields>)
    ensures r == ListSpec(env, p, s)
    decreases s, 2
  {
    var name := QualifyName(p, s);
    if p.keyword != "list" {
      var d := SearchOne(s, "description");
      if d.None? {
        return Err(AttributeError);
      }
      var description := PyangCommon.PreprocessString(d.value.arg);
      var items := ListChildren(env, s);
      if items.Err? {
        return Err(items.error);
      }
      r := Ok(Nest(p, name, [("type", Str("list")), ("description", Str(description)),
        ("elements", Str("dict")), ("suboptions", JList(items.value))]));
    } else {
      var items := ListChildren(env, s);
      if items.Err? {
        return Err(items.error);
      }
      r := Ok(Nest(p, name, [("type", Str("list")), ("suboptions", JList(items.value))]));
    }
  }

  /** `produce_leaf_list(stmt)`. */
  method ProduceLeafList(env: Pyang, p: Parent, s: Stmt) returns (r: Result<Fields>)
    ensures r == LeafListSpec(env, p, s)
    decreases s, 2
  {
    var name := QualifyName(p, s);
    var t := SearchOne(s, "type");
    if t.None? {
      return Err(AttributeError);
    }
    var typeId := t.value.arg;
    if typeId in env.baseTypes || typeId in OtherTypes {
      var ty := ProduceType(env, t);
      if ty.Err? {
        return Err(ty.error);
      }
      r := Ok([(name, JObj([("type", Str("list")), ("elements", Str("dict")), ("suboptions", JList([JObj(ty.value)]))]))]);
    } else {
      r := Ok([(name, JObj([("type", Str("list")), ("suboptions", JList([JObj(TypeDict("str"))]))]))]);
    }
  }

  /** `produce_leaf(stmt)`. */
  method ProduceLeaf(env: Pyang, p: Parent, s: Stmt) returns (r: Result<Fields>)
    ensures r == LeafSpec(env, p, s)
    decreases s, 2
  {
    var name := QualifyName(p, s);
    var ty := ProduceType(env, SearchOne(s, "type"));
    if ty.Err? {
      return Err(ty.error);
    }
    r := Ok([(name, JObj(ty.value))]);
  }

  /** `produce_choice(stmt)`: first the children of each `case`, then the
      short-form cases among the substatements. */
  method ProduceChoice(env: Pyang, s: Stmt) returns (r: Result<Fields>)
    ensures r == ChoiceSpec(env, s)
    decreases s, 2
  {
    var long := MergeCases(env, s);
    if long.Err? {
      return Err(long.error);
    }
    r := MergeShortCases(env, s, long.value);
  }

  /** The loop of `produce_choice` over its cases. */
  method MergeCases(env: Pyang, s: Stmt) returns (r: Result<Fields>)
    ensures r == MergeGroups(CaseGroups(env, s), |Search(s, "case")|)
    decreases s, 1
  {
    var cases := Search(s, "case");
    var result: Fields := [];
    for i := 0 to |cases|
      invariant MergeGroups(CaseGroups(env, s), i) == Ok(result)
    {
      var next := MergeCase(env, s, i, result);
      if next.Err? {
        MergeGroupsFails(CaseGroups(env, s), i + 1, |cases|);
        return next;
      }
      result := next.value;
    }
    return Ok(result);
  }

  /** One turn of `MergeCases`: the children of case `i`. */
  method MergeCase(env: Pyang, s: Stmt, i: nat, acc: Fields) returns (r: Result<Fields>)
    requires i < |Search(s, "case")| && MergeGroups(CaseGroups(env, s), i) == Ok(acc)
    ensures r == MergeGroups(CaseGroups(env, s), i + 1)
    decreases s, 0
  {
    var c := Search(s, "case")[i];
    assert c in Search(s, "case");
    r := MergeChildren(env, c, acc);
    assert CaseGroups(env, s)[i] == ChildResults(env, c);
  }

  /** The loop of `produce_choice` over its short-form cases. */
  method MergeShortCases(env: Pyang, s: Stmt, acc: Fields) returns (r: Result<Fields>)
    ensures r == MergeAll(acc, ShortResults(env, s), |s.substmts|)
    decreases s, 1
  {
    var result := acc;
    for n := 0 to |s.substmts|
      invariant MergeAll(acc, ShortResults(env, s), n) == Ok(result)
    {
      var next := MergeShortCase(env, s, acc, n, result);
      if next.Err? {
        MergeAllFails(acc, ShortResults(env, s), n + 1, |s.substmts|);
        return next;
      }
      result := next.value;
    }
    return Ok(result);
  }

  /** One turn of `MergeShortCases`. */
  method MergeShortCase(env: Pyang, s: Stmt, ghost acc: Fields, n: nat, data: Fields) returns (r: Result<Fields>)
    requires n < |s.substmts| && MergeAll(acc, ShortResults(env, s), n) == Ok(data)
    ensures r == MergeAll(acc, ShortResults(env, s), n + 1)
    decreases s, 0
  {
    var child := s.substmts[n];
    if child.keyword in ShortCases {
      var add := Producer(env, Under(s), child);
      if add.Err? {
        return Err(add.error);
      }
      return Ok(Update(data, add.value));
    }
    return Ok(data);
  }

  /** The loop of `produce_container`, and of `produce_choice` over one
      case: `acc.update(...)` with the result of every producer child. */
  method MergeChildren(env: Pyang, owner: Stmt, acc: Fields) returns (r: Result<Fields>)
    ensures r == MergeAll(acc, ChildResults(env, owner), |owner.children|)
    decreases owner, 1
  {
    var data := acc;
    for n := 0 to |owner.children|
      invariant MergeAll(acc, ChildResults(env, owner), n) == Ok(data)
    {
      var next := MergeChild(env, owner, acc, n, data);
      if next.Err? {
        MergeAllFails(acc, ChildResults(env, owner), n + 1, |owner.children|);
        return next;
      }
      data := next.value;
    }
    return Ok(data);
  }

  /** One turn of `MergeChildren`. */
  method MergeChild(env: Pyang, owner: Stmt, ghost acc: Fields, n: nat, data: Fields) returns (r: Result<Fields>)
    requires n < |owner.children| && MergeAll(acc, ChildResults(env, owner), n) == Ok(data)
    ensures r == MergeAll(acc, ChildResults(env, owner), n + 1)
    decreases owner, 0
  {
    var child := owner.children[n];
    if child.keyword in Producers {
      var add := Producer(env, Under(owner), child);
      if add.Err? {
        return Err(add.error);
      }
      return Ok(Update(data, add.value));
    }
    return Ok(data);
  }

  /** The loop of `produce_list`: appends the result of every producer
      child. */
  method ListChildren(env: Pyang, owner: Stmt) returns (r: Result<seq<Json>>)
    ensures r == AppendAll(ChildResults(env, owner), |owner.children|)
    decreases owner, 1
  {
    var items: seq<Json> := [];
    for n := 0 to |owner.children|
      invariant AppendAll(ChildResults(env, owner), n) == Ok(items)
    {
      var next := ListChild(env, owner, n, items);
      if next.Err? {
        AppendAllFails(ChildResults(env, owner), n + 1, |owner.children|);
        return next;
      }
      items := next.value;
    }
    return Ok(items);
  }

  /** One turn of `ListChildren`. */
  method ListChild(env: Pyang, owner: Stmt, n: nat, items: seq<Json>) returns (r: Result<seq<Json>>)
    requires n < |owner.children| && AppendAll(ChildResults(env, owner), n) == Ok(items)
    ensures r == AppendAll(ChildResults(env, owner), n + 1)
    decreases owner, 0
  {
    var child := owner.children[n];
    if child.keyword in Producers {
      var add := Producer(env, Under(owner), child);
      if add.Err? {
        return Err(add.error);
      }
      return Ok(items + [JObj(add.value)]);
    }
    return Ok(items);
  }

  /** `produce_schema(root)`. */
  method ProduceSchema(env: Pyang, root: Stmt) returns (r: Result<Fields>)
    ensures r == Schema(env, root)
  {
    var result: Fields := [];
    for n := 0 to |root.children|
      invariant MergeAll([], RootResults(env, root), n) == Ok(result)
    {
      var next := SchemaChild(env, root, n, result);
      if next.Err? {
        MergeAllFails([], RootResults(env, root), n + 1, |root.children|);
        return next;
      }
      result := next.value;
    }
    return Ok(result);
  }

  /** One turn of `ProduceSchema`. */
  method SchemaChild(env: Pyang, root: Stmt, n: nat, data: Fields) returns (r: Result<Fields>)
    requires n < |root.children| && MergeAll([], RootResults(env, root), n) == Ok(data)
    ensures r == MergeAll([], RootResults(env, root), n + 1)
  {
    var child := root.children[n];
    if child.keyword in env.dataDefinitionKeywords && child.keyword in Producers {
      var add := Producer(env, AtRoot(root), child);
      if add.Err? {
        return Err(add.error);
      }
      return Ok(Update(data, add.value));
    }
    return Ok(data);
  }

  /** `emit`: the schema of the first module, keys ordered. */
  method Emit(env: Pyang, root: Stmt) returns (r: Result<Fields>)
    ensures Schema(env, root).Err? ==> r == Schema(env, root)
    ensures Schema(env, root).Ok? ==> r == Ok(PyangCommon.OrderFields(Schema(env, root).value, OutputOrder))
  {
    var schema := ProduceSchema(env, root);
    if schema.Err? {
      return schema;
    }
    var ordered := PyangCommon.OrderDict(schema.value, OutputOrder);
    return Ok(ordered);
  }

  const OutputOrder: seq<string> := ["description", "type", "elements", "choices", "suboptions"]

  // ---------------------------------------------------------------------
  // What the schema and the producers hold

  /** The schema succeeds exactly when no contributing top-level node
      fails; its keys are then exactly the keys those nodes produce, each
      once. */
  lemma SchemaKeys(env: Pyang, root: Stmt)
    ensures var r := Schema(env, root);
      var rs := RootResults(env, root);
      (r.Ok? <==> forall i :: 0 <= i < |root.children| ==> !Failed(rs[i]))
      && (r.Ok? ==> (DistinctKeys(r.value)
        && forall k :: k in Keys(r.value) <==> Supplied(Values(rs), |root.children|, k)))
  {
    var rs := RootResults(env, root);
    MergeAllOk([], rs, |root.children|);
    UpdateAllKeys([], Values(rs), |root.children|);
  }

  /** A key that several top-level nodes produce reads what the last of
      them produced. */
  lemma SchemaLast(env: Pyang, root: Stmt, i: nat, k: string)
    requires i < |root.children|
    requires var o := Values(RootResults(env, root))[i]; o.Some? && k in Keys(o.value)
    requires forall j :: i < j < |root.children| && Values(RootResults(env, root))[j].Some? ==>
      k !in Keys(Values(RootResults(env, root))[j].value)
    ensures var r := Schema(env, root);
      r.Ok? ==> Lookup(r.value, k) == Lookup(Values(RootResults(env, root))[i].value, k)
  {
    var rs := RootResults(env, root);
    var c := root.children[i];
    assert rs[i] == Some(Produce(env, AtRoot(root), c));
    ProduceDistinct(env, AtRoot(root), c);
    MergeAllOk([], rs, |root.children|);
    UpdateAllLast([], Values(rs), |root.children|, i, k);
  }

  /** A choice is flattened into its parent: its keys are those that the
      children of its cases and its short-form cases produce, each once. */
  lemma ChoiceKeys(env: Pyang, s: Stmt)
    ensures var r := ChoiceSpec(env, s);
      r.Ok? ==> (DistinctKeys(r.value)
        && forall k :: k in Keys(r.value) <==>
          SuppliedIn(ValuesEach(CaseGroups(env, s)), |Search(s, "case")|, k)
          || Supplied(Values(ShortResults(env, s)), |s.substmts|, k))
  {
    var groups := CaseGroups(env, s);
    var long := MergeGroups(groups, |Search(s, "case")|);
    MergeGroupsOk(groups, |Search(s, "case")|);
    UpdateEachKeys(ValuesEach(groups), |Search(s, "case")|);
    if long.Ok? {
      MergeAllOk(long.value, ShortResults(env, s), |s.substmts|);
      UpdateAllKeys(long.value, Values(ShortResults(env, s)), |s.substmts|);
    }
  }

  /** Every producer returns a dict with distinct keys. */
  lemma ProduceDistinct(env: Pyang, p: Parent, s: Stmt)
    requires s.keyword in Producers
    ensures Produce(env, p, s).Ok? ==> DistinctKeys(Produce(env, p, s).value)
  {
    if s.keyword == "choice" {
      ChoiceKeys(env, s);
    }
  }

  /** A leaf, a leaf-list, and a container or list under a non-list
      parent each produce one key, their qualified name; a container or
      list under a list produces `type` and `suboptions` and nests the
      name inside. */
  lemma ProduceKeys(env: Pyang, p: Parent, s: Stmt)
    requires s.keyword in Producers - {"choice"}
    ensures var r := Produce(env, p, s);
      r.Ok? ==>
        if p.keyword == "list" && s.keyword in {"container", "list"} then
          Keys(r.value) == ["type", "suboptions"] && r.value[1].1.JObj?
          && Keys(r.value[1].1.fields) == [QualifyName(p, s)]
        else Keys(r.value) == [QualifyName(p, s)]
  {
  }

  /** A container succeeds exactly when none of its producer children
      fails; its `suboptions` are then the merge of what they produce:
      exactly their keys, later children overriding earlier ones. */
  lemma ContainerSuboptions(env: Pyang, p: Parent, s: Stmt)
    ensures var r := ContainerSpec(env, p, s);
      var rs := ChildResults(env, s);
      var sub := UpdateAll([], Values(rs), |s.children|);
      (r.Ok? <==> forall i :: 0 <= i < |s.children| ==> !Failed(rs[i]))
      && (r.Ok? ==> r.value == Nest(p, QualifyName(p, s), [("type", Str("dict")), ("suboptions", JObj(sub))]))
      && DistinctKeys(sub)
      && forall k :: k in Keys(sub) <==> Supplied(Values(rs), |s.children|, k)
  {
    var rs := ChildResults(env, s);
    MergeAllOk([], rs, |s.children|);
    UpdateAllKeys([], Values(rs), |s.children|);
  }

  /** A list's `suboptions` list holds one dict per producer child, in
      child order; under a non-list parent the list also carries its
      description. */
  lemma ListSuboptions(env: Pyang, p: Parent, s: Stmt)
    ensures var r := ListSpec(env, p, s);
      var items := JList(Collect(Values(ChildResults(env, s)), |s.children|));
      r.Ok? ==>
        if p.keyword != "list" then
          SearchOne(s, "description").Some?
          && r.value == Nest(p, QualifyName(p, s), [("type", Str("list")),
            ("description", Str(PyangCommon.PreprocessString(SearchOne(s, "description").value.arg))),
            ("elements", Str("dict")), ("suboptions", items)])
        else r.value == Nest(p, QualifyName(p, s), [("type", Str("list")), ("suboptions", items)])
  {
    AppendAllOk(ChildResults(env, s), |s.children|);
  }

  // ---------------------------------------------------------------------
  // What produce_type gives

  /** The `type` statement a chain of typedefs ends at: the first whose
      name is a built-in type or that names no typedef; `None` when a
      typedef on the way has no `type`. */
  function Resolve(env: Pyang, t: Stmt): Option<Stmt>
    decreases Size(t)
  {
    if t.arg in env.baseTypes || t.typedef.None? then Some(t)
    else
      match SearchOne(t.typedef.value, "type")
      case None => None
      case Some(tt) =>
        SubstmtSmaller(t.typedef.value, tt);
        Resolve(env, tt)
  }

  /** `produce_type` follows typedefs to the end of the chain: an integer
      type gives `int`, a table type its translation, any other built-in
      or unknown name `string`, and a broken chain `AttributeError`. */
  lemma {:induction false} TypeChain(env: Pyang, t: Stmt)
    ensures var r := TypeSpec(env, t);
      match Resolve(env, t)
      case None => r == Err(AttributeError)
      case Some(b) =>
        if b.arg !in env.baseTypes then r == Ok(TypeDict("string"))
        else if b.arg in NumericTypes then r == Ok(TypeDict("int"))
        else if b.arg in OtherTypes then r == OtherSpec(env, b)
        else r == Ok(TypeDict("string"))
    decreases Size(t)
  {
    if t.arg !in env.baseTypes && t.typedef.Some? {
      var tt := SearchOne(t.typedef.value, "type");
      if tt.Some? {
        SubstmtSmaller(t.typedef.value, tt.value);
        TypeChain(env, tt.value);
      }
    }
  }

  /** `union_trans` succeeds exactly when every member type does. */
  lemma UnionOk(env: Pyang, t: Stmt)
    requires t.arg == "union"
    ensures var members := Search(t, "type");
      OtherSpec(env, t).Ok? <==> forall i :: 0 <= i < |members| ==> TypeSpec(env, members[i]).Ok?
  {
    var members := Search(t, "type");
    AppendAllOk(UnionResults(env, t), |members|);
    forall i | 0 <= i < |members| ensures UnionResults(env, t)[i] == Some(TypeSpec(env, members[i])) {
      UnionResultAt(env, t, i);
    }
  }

  /** `union_trans` gives one `oneOf` entry per member type, in order. */
  lemma UnionItems(env: Pyang, t: Stmt)
    requires t.arg == "union"
    ensures var r := OtherSpec(env, t);
      var members := Search(t, "type");
      r.Ok? ==> (Keys(r.value) == ["oneOf"] && r.value[0].1.JList?
        && |r.value[0].1.items| == |members|
        && forall i :: 0 <= i < |members| ==>
          TypeSpec(env, members[i]).Ok? && r.value[0].1.items[i] == JObj(TypeSpec(env, members[i]).value))
  {
    var members := Search(t, "type");
    var rs := UnionResults(env, t);
    AppendAllOk(rs, |members|);
    if OtherSpec(env, t).Ok? {
      var items := AppendAll(rs, |members|).value;
      forall i | 0 <= i < |members|
        ensures TypeSpec(env, members[i]).Ok? && Values(rs)[i] == Some(TypeSpec(env, members[i]).value)
      {
        UnionResultAt(env, t, i);
        assert !Failed(rs[i]);
      }
      CollectAll(Values(rs), |members|);
      assert OtherSpec(env, t) == Ok([("oneOf", JList(items))]);
    }
  }

  lemma UnionResultAt(env: Pyang, t: Stmt, i: nat)
    requires i < |Search(t, "type")|
    ensures UnionResults(env, t)[i] == Some(TypeSpec(env, Search(t, "type")[i]))
  {
    var members := Search(t, "type");
    assert UnionResults(env, t)[i] == MemberResult(env, t, members[i]);
  }

  /** The name `qualify_name` gives splits at `:` into the prefix it
      chose and the node's name. */
  lemma QualifiedParts(p: Parent, s: Stmt)
    requires ':' !in s.arg && ':' !in s.moduleName && ':' !in s.top
    ensures var parts := Text.SplitBy(QualifyName(p, s), ":");
      (p.isModule ==> parts == [s.moduleName, s.arg])
      && (!p.isModule && s.top != p.top ==> parts == [s.top, s.arg])
      && (!p.isModule && s.top == p.top ==> parts == [s.arg])
  {
    if p.isModule {
      Text.SplitAround(s.moduleName, ":", s.arg);
    } else if s.top != p.top {
      Text.SplitAround(s.top, ":", s.arg);
    } else {
      Text.SplitWithout(s.arg, ":");
    }
  }

  // ---------------------------------------------------------------------
  // find_stmt_by_path

  /** The data-definition statements of `ss`, in order. */
  function DataChildren(env: Pyang, ss: seq<Stmt>): (r: seq<Stmt>)
    ensures forall x :: x in r <==> x in ss && x.keyword in env.dataDefinitionKeywords
  {
    if ss == [] then []
    else (if ss[0].keyword in env.dataDefinitionKeywords then [ss[0]] else []) + DataChildren(env, ss[1..])
  }

  /** The data-definition statements of `ss` named `name`, in order. */
  function Named(env: Pyang, ss: seq<Stmt>, name: string): (r: seq<Stmt>)
    ensures forall x :: x in r <==> x in ss && x.arg == name && x.keyword in env.dataDefinitionKeywords
  {
    if ss == [] then []
    else
      (if ss[0].arg == name && ss[0].keyword in env.dataDefinitionKeywords then [ss[0]] else [])
      + Named(env, ss[1..], name)
  }

  /** The steps of a path: `path.split("/")` without a leading empty
      step. */
  function Steps(path: string): (r: seq<string>) {
    var parts := Text.SplitBy(path, "/");
    if parts[0] == "" then parts[1..] else parts
  }

  function MissingPath(path: string): Error {
    EmitError("Path '" + path + "' does not exist in module")
  }

  /** The walk of `find_stmt_by_path` from `children` along `steps`;
      `last` is the statement the previous step matched (`match[0]`). */
  function Walk(env: Pyang, children: seq<Stmt>, steps: seq<string>, path: string, last: Option<Stmt>): Result<Stmt>
    decreases |steps|
  {
    if steps == [] then
      if last.None? then Err(UnboundLocal) else Ok(last.value)
    else
      var found := Named(env, children, steps[0]);
      if found == [] then Err(MissingPath(path))
      else Walk(env, found[0].children, steps[1..], path, Some(found[0]))
  }

  /** `find_stmt_by_path(mod, path)`; a missing path (`None`) and an
      empty one both leave a local unbound. */
  function FindByPath(env: Pyang, mod: Stmt, path: Option<string>): Result<Stmt> {
    if path.None? then Err(UnboundLocal)
    else Walk(env, DataChildren(env, mod.children), Steps(path.value), path.value, None)
  }

  method FindStmtByPath(env: Pyang, mod: Stmt, path: Option<string>) returns (r: Result<Stmt>)
    ensures r == FindByPath(env, mod, path)
  {
    if path.None? {
      return Err(UnboundLocal);
    }
    var steps := Text.SplitBy(path.value, "/");
    if steps[0] == "" {
      steps := steps[1..];
    }
    var children := DataChildren(env, mod.children);
    var last: Option<Stmt> := None;
    while |steps| > 0
      invariant Walk(env, children, steps, path.value, last) == FindByPath(env, mod, path)
      decreases |steps|
    {
      var found := Named(env, children, steps[0]);
      if |found| > 0 {
        last := Some(found[0]);
        steps := steps[1..];
        children := found[0].children;
      } else {
        return Err(MissingPath(path.value));
      }
    }
    if last.None? {
      return Err(UnboundLocal);
    }
    return Ok(last.value);
  }

  /** What the walk finds is a data-definition statement named by the last
      step; a failing walk fails with `UnboundLocal` only when there are no
      steps, and otherwise with the message naming the path. */
  lemma {:induction false} WalkFacts(env: Pyang, children: seq<Stmt>, steps: seq<string>, path: string, last: Option<Stmt>)
    requires steps != []
    ensures var r := Walk(env, children, steps, path, last);
      (r.Ok? ==> r.value.arg == steps[|steps| - 1] && r.value.keyword in env.dataDefinitionKeywords)
      && (r.Err? ==> r.error == MissingPath(path))
    decreases |steps|
  {
    var found := Named(env, children, steps[0]);
    if found != [] {
      assert found[0] in found;
      if |steps| > 1 {
        WalkFacts(env, found[0].children, steps[1..], path, Some(found[0]));
        assert steps[1..][|steps| - 2] == steps[|steps| - 1];
      }
    }
  }

  /** `find_stmt_by_path` returns a data-definition statement named by the
      path's last step, fails with the "does not exist" message, or — for
      a path with no steps at all — leaves `match` unbound. */
  lemma FindFacts(env: Pyang, mod: Stmt, path: string)
    ensures var r := FindByPath(env, mod, Some(path));
      var steps := Steps(path);
      (steps == [] <==> r == Err(UnboundLocal))
      && (r.Ok? ==> r.value.arg == steps[|steps| - 1] && r.value.keyword in env.dataDefinitionKeywords)
      && (r.Err? && steps != [] ==> r.error == MissingPath(path))
  {
    if Steps(path) != [] {
      WalkFacts(env, DataChildren(env, mod.children), Steps(path), path, None);
    }
  }

  /** A path written `/n1/n2/.../nk`, with no `/` inside a name, walks
      exactly the steps `n1, ..., nk`. */
  lemma AbsoluteSteps(names: seq<string>)
    requires |names| >= 1
    requires forall i :: 0 <= i < |names| ==> '/' !in names[i]
    ensures Steps("/" + Text.Join(names, "/")) == names
  {
    Text.SplitAfterPiece("", '/', Text.Join(names, "/"));
    assert "" + ['/'] + Text.Join(names, "/") == "/" + Text.Join(names, "/");
    Text.SplitJoin(names, '/');
  }

  /** A one-step walk finds the first data-definition child with that
      name, and fails exactly when there is none. */
  lemma OneStep(env: Pyang, children: seq<Stmt>, name: string, path: string)
    ensures var r := Walk(env, children, [name], path, None);
      (r.Ok? <==> exists x :: x in children && x.arg == name && x.keyword in env.dataDefinitionKeywords)
      && (r.Ok? ==> r.value == Named(env, children, name)[0])
  {
    var found := Named(env, children, name);
    if found != [] {
      assert found[0] in found;
      assert [name][1..] == [];
    }
  }
}
