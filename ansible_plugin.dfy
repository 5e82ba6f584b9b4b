/** The minimal `ansible` pyang output plugin.

    `yang_to_dict` turns each schema child of a module into one dict entry
    keyed by the child's name: leaves and leaf-lists give their
    description, raw type argument and `required` (true iff there is no
    default); containers and lists give `dict`/`list` with their own
    children converted as `suboptions`; choices give `str` with their
    cases' names as `choices`. Every other kind of node is skipped. */
module AnsiblePlugin {
  import opened Wrappers
  import opened Yang
  import opened JsonValue
  import Text
  import AnsibleNext

  /** The keywords `yang_to_dict` writes an entry for. */
  predicate Converted(c: Stmt) {
    c.keyword in ["leaf", "leaf-list", "container", "list", "choice"]
  }

  /** The description with every line break joined by a space, or `''`
      when the node has none. */
  function Description(c: Stmt): string {
    match SearchOne(c, "description")
    case Some(d) => Text.Join(Text.SplitBy(d.arg, "\n"), " ")
    case None => ""
  }

  /** The argument of the node's `type` statement, or `''`. */
  function TypeArg(c: Stmt): string {
    match SearchOne(c, "type")
    case Some(t) => t.arg
    case None => ""
  }

  /** The entry of a leaf or leaf-list. */
  function LeafEntry(c: Stmt): Json {
    JObj([("description", Str(Description(c))), ("type", Str(TypeArg(c))),
      ("required", JBool(SearchOne(c, "default").None?))])
  }

  /** The entry of a container or list whose children convert to `sub`. */
  function NodeEntry(c: Stmt, sub: Fields): Json {
    JObj([("description", Str(Description(c))), ("type", Str(if c.keyword == "list" then "list" else "dict")),
      ("suboptions", JObj(sub))])
  }

  /** The entry of a choice. */
  function ChoiceEntry(c: Stmt): Json {
    JObj([("description", Str(Description(c))), ("type", Str("str")), ("choices", StrList(Args(c.children)))])
  }

  /** The entry written for `c`: there is one exactly for the converted
      keywords. */
  function Entry(c: Stmt): (r: Option<Json>)
    ensures r.Some? <==> Converted(c)
    decreases c, 2
  {
    if c.keyword in ["leaf", "leaf-list"] then Some(LeafEntry(c))
    else if c.keyword in ["container", "list"] then Some(NodeEntry(c, Convert(c)))
    else if c.keyword == "choice" then Some(ChoiceEntry(c))
    else None
  }

  /** The entry of each child of `s`, in order. */
  function Entries(s: Stmt): (r: seq<Option<Json>>)
    ensures |r| == |s.children|
    decreases s, 0
  {
    seq(|s.children|, i requires 0 <= i < |s.children| => Entry(s.children[i]))
  }

  /** What `yang_to_dict(s, path)` returns: `data[child.arg] = entry` for
      every child with an entry, in child order. */
  function Convert(s: Stmt): Fields
    decreases s, 1
  {
    Assign(Args(s.children), Entries(s), |s.children|)
  }

  /** `yang_to_dict(yang_module, path)`. */
  method YangToDict(s: Stmt) returns (data: Fields)
    ensures data == Convert(s)
    decreases s, 1
  {
    data := [];
    for n := 0 to |s.children|
      invariant data == Assign(Args(s.children), Entries(s), n)
    {
      var child := s.children[n];
      var e := ChildEntry(child);
      if e.Some? {
        data := Put(data, child.arg, e.value);
      }
    }
  }

  /** One loop turn of `yang_to_dict`: the entry for `child`, if any. */
  method ChildEntry(child: Stmt) returns (r: Option<Json>)
    ensures r == Entry(child)
    decreases child, 2
  {
    if child.keyword in ["leaf", "leaf-list"] {
      return Some(LeafEntry(child));
    } else if child.keyword in ["container", "list"] {
      var sub := YangToDict(child);
      return Some(NodeEntry(child, sub));
    } else if child.keyword == "choice" {
      return Some(ChoiceEntry(child));
    }
    return None;
  }

  // ---------------------------------------------------------------------
  // What yang_to_dict promises

  /** The keys of the result are exactly the names of the converted
      children. */
  lemma ConvertKeys(s: Stmt, k: string)
    ensures k in Keys(Convert(s)) <==> exists c :: c in s.children && Converted(c) && c.arg == k
  {
    var names := Args(s.children);
    var entries := Entries(s);
    var n := |s.children|;
    AssignKeys(names, entries, n);
    if exists c :: c in s.children && Converted(c) && c.arg == k {
      var c :| c in s.children && Converted(c) && c.arg == k;
      var i :| 0 <= i < n && s.children[i] == c;
      assert entries[i].Some? && names[i] == k;
    }
    if k in Keys(Convert(s)) {
      var i :| 0 <= i < n && entries[i].Some? && names[i] == k;
      assert s.children[i] in s.children;
    }
  }

  /** The result never holds a key twice. */
  lemma ConvertDistinct(s: Stmt)
    ensures DistinctKeys(Convert(s))
  {
    AssignDistinct(Args(s.children), Entries(s), |s.children|);
  }

  /** A name shared by several children reads the entry of the last of
      them: a later `data[child.arg] = ...` replaces an earlier one. */
  lemma ConvertLast(s: Stmt, i: nat)
    requires i < |s.children| && Converted(s.children[i])
    requires forall j :: i < j < |s.children| && Converted(s.children[j]) ==> s.children[j].arg != s.children[i].arg
    ensures Lookup(Convert(s), s.children[i].arg) == Entry(s.children[i])
  {
    var names := Args(s.children);
    var entries := Entries(s);
    forall j | i < j < |s.children| && entries[j].Some? ensures names[j] != names[i] {
      assert Converted(s.children[j]);
    }
    AssignLast(names, entries, |s.children|, i, s.children[i].arg);
  }

  /** The description of an entry: the description's text with each line
      break turned into a space, so it holds no line break; `''` without
      a description statement. */
  lemma DescriptionText(c: Stmt)
    ensures SearchOne(c, "description").None? ==> Description(c) == ""
    ensures SearchOne(c, "description").Some? ==>
      Description(c) == Text.ReplaceChar(SearchOne(c, "description").value.arg, '\n', ' ')
    ensures '\n' !in Description(c)
  {
    var d := SearchOne(c, "description");
    if d.Some? {
      Text.JoinSplitReplace(d.value.arg, '\n', ' ');
    }
  }

  /** A leaf or leaf-list is required exactly when it has no `default`
      statement; its type is the raw argument of its first `type`
      statement, or `''` when it has none. */
  lemma LeafEntryFacts(c: Stmt)
    requires c.keyword in ["leaf", "leaf-list"]
    ensures Entry(c) == Some(LeafEntry(c))
    ensures var fields := LeafEntry(c).fields;
      && Keys(fields) == ["description", "type", "required"]
      && (Lookup(fields, "required") == Some(JBool(true)) <==>
          !exists i :: 0 <= i < |c.substmts| && c.substmts[i].keyword == "default")
      && ((exists i :: 0 <= i < |c.substmts| && c.substmts[i].keyword == "type") ==>
          exists i :: FirstMatchAt(c.substmts, i, "type", None) && Lookup(fields, "type") == Some(Str(c.substmts[i].arg)))
      && ((!exists i :: 0 <= i < |c.substmts| && c.substmts[i].keyword == "type") ==>
          Lookup(fields, "type") == Some(Str("")))
  {
    var fields := LeafEntry(c).fields;
    Display3("description", "type", "required", fields[0].1, fields[1].1, fields[2].1);
    SearchOneIsFirst(c, "type");
  }

  /** A container is a `dict` and a list a `list`; both carry their own
      children converted as `suboptions`. */
  lemma NodeEntryFacts(c: Stmt)
    requires c.keyword in ["container", "list"]
    ensures Entry(c) == Some(NodeEntry(c, Convert(c)))
    ensures var fields := NodeEntry(c, Convert(c)).fields;
      && Keys(fields) == ["description", "type", "suboptions"]
      && (Lookup(fields, "type") == Some(Str("list")) <==> c.keyword == "list")
      && (Lookup(fields, "type") == Some(Str("dict")) <==> c.keyword == "container")
      && Lookup(fields, "suboptions") == Some(JObj(Convert(c)))
  {
    var fields := NodeEntry(c, Convert(c)).fields;
    Display3("description", "type", "suboptions", fields[0].1, fields[1].1, fields[2].1);
  }

  /** A choice is a `str` whose choices are the names of its cases, in
      order. */
  lemma ChoiceEntryFacts(c: Stmt)
    requires c.keyword == "choice"
    ensures Entry(c) == Some(ChoiceEntry(c))
    ensures var fields := ChoiceEntry(c).fields;
      && Keys(fields) == ["description", "type", "choices"]
      && Lookup(fields, "type") == Some(Str("str"))
      && Lookup(fields, "choices") == Some(StrList(Args(c.children)))
  {
    var fields := ChoiceEntry(c).fields;
    Display3("description", "type", "choices", fields[0].1, fields[1].1, fields[2].1);
  }

  // ---------------------------------------------------------------------
  // emit

  /** The path `emit` hands to every module: `sample_path` split at `/`
      with a leading empty piece dropped, or `[]` without a sample path. */
  function SamplePath(samplePath: Option<string>): seq<string> {
    match samplePath
    case Some(p) => AnsibleNext.Steps(p)
    case None => []
  }

  /** A sample path written `/n1/.../nk` or `n1/.../nk`, with no `/`
      inside a name, gives back the names. */
  lemma SamplePathNames(names: seq<string>)
    requires |names| >= 1 && names[0] != ""
    requires forall i :: 0 <= i < |names| ==> '/' !in names[i]
    ensures SamplePath(Some("/" + Text.Join(names, "/"))) == names
    ensures SamplePath(Some(Text.Join(names, "/"))) == names
  {
    AnsibleNext.AbsoluteSteps(names);
    Text.SplitJoin(names, '/');
  }
}
