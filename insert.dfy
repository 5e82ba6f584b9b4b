/** The `insert.py` script: a subtree of one YAML document, picked by a
    dotted key path, becomes `options.config` of the `DOCUMENTATION` held
    (as YAML text) in a resource module builder file. Before that, both
    documents have every `on`/`off` value double-quoted in place, so that
    YAML readers do not take them for booleans. Reading and writing the
    files and the YAML parser itself are parameters of this model. */
module Insert {
  import opened Wrappers
  import opened JsonValue
  import Text
  import PlainPython

  // ---------------------------------------------------------------------
  // stringify_on_off

  /** `v == 'on' or v == 'off'`: a string of any class with that content. */
  predicate IsOnOff(v: Json) {
    IsStr(v, "on") || IsStr(v, "off")
  }

  /** A value after its container's loop has visited it: an `on`/`off`
      string double-quoted, a nested dict or list converted in turn,
      anything else as it was. */
  function StringifyValue(v: Json): Json
    decreases v, 1
  {
    if IsOnOff(v) then JStr(v.s, DoubleQuoted)
    else if v.JObj? || v.JList? then Stringified(v)
    else v
  }

  /** The value `stringify_on_off(obj)` leaves `obj` holding; a value that
      is neither a dict nor a list is left alone. */
  function Stringified(j: Json): Json
    decreases j, 0
  {
    match j
    case JObj(f) => JObj(seq(|f|, i requires 0 <= i < |f| => (f[i].0, StringifyValue(f[i].1))))
    case JList(items) => JList(seq(|items|, i requires 0 <= i < |items| => StringifyValue(items[i])))
    case _ => j
  }

  /** A dict whose first `n` entries the loop has visited. */
  function VisitedFields(f: Fields, n: nat): (r: Fields)
    requires n <= |f|
    ensures |r| == |f|
  {
    seq(|f|, i requires 0 <= i < |f| => if i < n then (f[i].0, StringifyValue(f[i].1)) else f[i])
  }

  /** A list whose first `n` elements the loop has visited. */
  function VisitedItems(items: seq<Json>, n: nat): (r: seq<Json>)
    requires n <= |items|
    ensures |r| == |items|
  {
    seq(|items|, i requires 0 <= i < |items| => if i < n then StringifyValue(items[i]) else items[i])
  }

  /** Every `on`/`off` value inside a dict or list, at any depth, is
      double-quoted. */
  predicate OnOffQuoted(j: Json)
    decreases j, 0
  {
    match j
    case JObj(f) => forall i :: 0 <= i < |f| ==> ValueQuoted(f[i].1)
    case JList(items) => forall i :: 0 <= i < |items| ==> ValueQuoted(items[i])
    case _ => true
  }

  /** A value inside a container as `OnOffQuoted` asks it to be. */
  predicate ValueQuoted(v: Json)
    decreases v, 1
  {
    if IsOnOff(v) then v.style == DoubleQuoted else OnOffQuoted(v)
  }

  /** A YAML document held by the script, updated in place. */
  class YamlDocument {
    var data: Json

    constructor (data: Json)
      ensures this.data == data
    {
      this.data := data;
    }

    /** `stringify_on_off(data)`: each dict value or list element equal
        to `on` or `off` is replaced by its double-quoted form, and nested
        dicts and lists are visited in turn. */
    method StringifyOnOff()
      modifies this
      ensures data == Stringified(old(data))
      decreases data
    {
      match data
      case JObj(f) =>
        for n := 0 to |f|
          invariant data == JObj(VisitedFields(f, n))
        {
          var v := f[n].1;
          if IsOnOff(v) {
            data := JObj(data.fields[n := (f[n].0, JStr(v.s, DoubleQuoted))]);
          } else if v.JObj? || v.JList? {
            var child := new YamlDocument(v);
            child.StringifyOnOff();
            data := JObj(data.fields[n := (f[n].0, child.data)]);
          }
          assert VisitedFields(f, n + 1) == VisitedFields(f, n)[n := (f[n].0, StringifyValue(v))];
        }
      case JList(items) =>
        for n := 0 to |items|
          invariant data == JList(VisitedItems(items, n))
        {
          var v := items[n];
          if IsOnOff(v) {
            data := JList(data.items[n := JStr(v.s, DoubleQuoted)]);
          } else if v.JObj? || v.JList? {
            var child := new YamlDocument(v);
            child.StringifyOnOff();
            data := JList(data.items[n := child.data]);
          }
          assert VisitedItems(items, n + 1) == VisitedItems(items, n)[n := StringifyValue(v)];
        }
      case _ =>
    }

    /** `data[key] = value` on a dict document. */
    method Set(key: string, value: Json)
      requires data.JObj?
      modifies this
      ensures data == JObj(Put(old(data).fields, key, value))
    {
      data := JObj(Put(data.fields, key, value));
    }

    /** The rest of `extract_and_update`, on the quoted builder file. */
    method InsertConfig(target: Json, load: Json -> Result<Json>,
                        dump: Json -> string, render: Json -> string) returns (r: Result<Json>)
      modifies this
      ensures r == UpdatedBuilder(old(data), target, load, dump, render)
      ensures r.Ok? ==> data == r.value
    {
      if !data.JObj? {
        return Err(AttributeError);
      }
      var content := Lookup(data.fields, "DOCUMENTATION");
      if content.None? || !Truthy(content.value) {
        return Ok(data);
      }
      var doc := load(content.value);
      if doc.Err? {
        return Err(doc.error);
      }
      var newDoc := SpliceConfig(doc.value, target);
      if newDoc.Err? {
        return Err(newDoc.error);
      }
      Set("DOCUMENTATION", Str(dump(newDoc.value)));
      r := QuoteVersions(render);
    }

    /** `XML_NAMESPACE` and then `GENERATOR_VERSION` double-quoted in
        place; the document as a whole, or the `KeyError` of the first
        one missing. */
    method QuoteVersions(render: Json -> string) returns (r: Result<Json>)
      requires data.JObj?
      modifies this
      ensures r == Requote(old(data).fields, render)
      ensures r.Ok? ==> data == r.value
    {
      var xml := GetItem(data, "XML_NAMESPACE");
      if xml.Err? {
        return Err(xml.error);
      }
      Set("XML_NAMESPACE", Quote(xml.value, render));
      var version := GetItem(data, "GENERATOR_VERSION");
      if version.Err? {
        return Err(version.error);
      }
      Set("GENERATOR_VERSION", Quote(version.value, render));
      return Ok(data);
    }
  }

  // ---------------------------------------------------------------------
  // extract_and_update

  /** The subtree reached by subscripting with each key in turn. */
  function Navigate(j: Json, keys: seq<string>): Result<Json> {
    if keys == [] then Ok(j)
    else
      var target :- Navigate(j, keys[..|keys| - 1]);
      GetItem(target, keys[|keys| - 1])
  }

  /** The loop `target_property = target_property[key]`. */
  method NavigateTo(j: Json, keys: seq<string>) returns (r: Result<Json>)
    ensures r == Navigate(j, keys)
  {
    var target := j;
    for n := 0 to |keys|
      invariant Navigate(j, keys[..n]) == Ok(target)
    {
      assert keys[..n + 1][..n] == keys[..n];
      var next := GetItem(target, keys[n]);
      if next.Err? {
        NavigateStops(j, keys, n + 1);
        return Err(next.error);
      }
      target := next.value;
    }
    assert keys[..|keys|] == keys;
    return Ok(target);
  }

  /** `documentation_dict['options']['config'] = target`. */
  function SpliceConfig(doc: Json, target: Json): Result<Json> {
    var options :- GetItem(doc, "options");
    if !options.JObj? then Err(TypeError)
    else Ok(JObj(Put(doc.fields, "options", JObj(Put(options.fields, "config", target)))))
  }

  /** `DoubleQuotedScalarString(v)`: the `str` of `v` (for a value that is
      not a string, as `render` writes it), double-quoted. */
  function Quote(v: Json, render: Json -> string): Json {
    JStr(if v.JStr? then v.s else render(v), DoubleQuoted)
  }

  /** What `extract_and_update` writes back to the builder file, given the
      two loaded documents, the key path, and the YAML parser and dumper
      for the `DOCUMENTATION` text. */
  function ExtractAndUpdate(inputData: Json, rmbData: Json, inputKey: string,
                            load: Json -> Result<Json>, dump: Json -> string,
                            render: Json -> string): Result<Json>
  {
    var target :- Navigate(inputData, Text.SplitBy(inputKey, "."));
    UpdatedBuilder(Stringified(rmbData), Stringified(target), load, dump, render)
  }

  /** The builder file once both documents are quoted: `.get` needs a
      dict; a truthy `DOCUMENTATION` is loaded, given `target` as
      `options.config`, dumped back, and the version strings quoted. */
  function UpdatedBuilder(rmb: Json, target: Json, load: Json -> Result<Json>,
                          dump: Json -> string, render: Json -> string): Result<Json>
  {
    if !rmb.JObj? then Err(AttributeError)
    else
      var content := Lookup(rmb.fields, "DOCUMENTATION");
      if content.None? || !Truthy(content.value) then Ok(rmb)
      else
        var doc :- load(content.value);
        var newDoc :- SpliceConfig(doc, target);
        Requote(Put(rmb.fields, "DOCUMENTATION", Str(dump(newDoc))), render)
  }

  /** The last two lines: `XML_NAMESPACE`, then `GENERATOR_VERSION`,
      double-quoted. */
  function Requote(rmb: Fields, render: Json -> string): Result<Json> {
    var xml :- GetItem(JObj(rmb), "XML_NAMESPACE");
    var quoted := Put(rmb, "XML_NAMESPACE", Quote(xml, render));
    var version :- GetItem(JObj(quoted), "GENERATOR_VERSION");
    Ok(JObj(Put(quoted, "GENERATOR_VERSION", Quote(version, render))))
  }

  /** `extract_and_update(input, rmb, input_key)` between loading and
      dumping the files. */
  method Extract(inputData: Json, rmbData: Json, inputKey: string,
                 load: Json -> Result<Json>, dump: Json -> string,
                 render: Json -> string) returns (r: Result<Json>)
    ensures r == ExtractAndUpdate(inputData, rmbData, inputKey, load, dump, render)
  {
    var found := NavigateTo(inputData, Text.SplitBy(inputKey, "."));
    if found.Err? {
      return Err(found.error);
    }
    var target := new YamlDocument(found.value);
    target.StringifyOnOff();
    var rmb := new YamlDocument(rmbData);
    rmb.StringifyOnOff();
    r := rmb.InsertConfig(target.data, load, dump, render);
  }

  // ---------------------------------------------------------------------
  // What stringify_on_off promises

  /** The loop keeps the shape: the same kind of value, the same keys in
      the same order, the same list lengths. */
  lemma StringifiedShape(j: Json)
    ensures j.JObj? <==> Stringified(j).JObj?
    ensures j.JList? <==> Stringified(j).JList?
    ensures j.JObj? ==> Keys(Stringified(j).fields) == Keys(j.fields)
    ensures j.JList? ==> |Stringified(j).items| == |j.items|
    ensures !j.JObj? && !j.JList? ==> Stringified(j) == j
  {
    if j.JObj? {
      assert Keys(Stringified(j).fields) == Keys(j.fields);
    }
  }

  /** Every value compares equal to what it was: only the string class of
      the `on`/`off` values changes. */
  lemma {:induction false} StringifiedEqual(j: Json)
    ensures PlainPython.Erase(Stringified(j)) == PlainPython.Erase(j)
    decreases j, 0
  {
    match j
    case JObj(f) =>
      forall i | 0 <= i < |f| ensures PlainPython.Erase(StringifyValue(f[i].1)) == PlainPython.Erase(f[i].1) {
        StringifyValueEqual(f[i].1);
      }
      assert PlainPython.Erase(Stringified(j)).fields == PlainPython.Erase(j).fields;
    case JList(items) =>
      forall i | 0 <= i < |items| ensures PlainPython.Erase(StringifyValue(items[i])) == PlainPython.Erase(items[i]) {
        StringifyValueEqual(items[i]);
      }
      assert PlainPython.Erase(Stringified(j)).items == PlainPython.Erase(j).items;
    case _ =>
  }

  lemma {:induction false} StringifyValueEqual(v: Json)
    ensures PlainPython.Erase(StringifyValue(v)) == PlainPython.Erase(v)
    decreases v, 1
  {
    if !IsOnOff(v) && (v.JObj? || v.JList?) {
      StringifiedEqual(v);
    }
  }

  /** Afterwards every `on`/`off` value at any depth is double-quoted. */
  lemma {:induction false} StringifiedQuoted(j: Json)
    ensures OnOffQuoted(Stringified(j))
    decreases j, 0
  {
    match j
    case JObj(f) =>
      forall i | 0 <= i < |f| ensures ValueQuoted(StringifyValue(f[i].1)) {
        StringifyValueQuoted(f[i].1);
      }
    case JList(items) =>
      forall i | 0 <= i < |items| ensures ValueQuoted(StringifyValue(items[i])) {
        StringifyValueQuoted(items[i]);
      }
    case _ =>
  }

  lemma {:induction false} StringifyValueQuoted(v: Json)
    ensures ValueQuoted(StringifyValue(v))
    decreases v, 1
  {
    if !IsOnOff(v) && (v.JObj? || v.JList?) {
      StringifiedQuoted(v);
      StringifiedShape(v);
      assert !IsOnOff(Stringified(v));
    }
  }

  /** A document whose `on`/`off` values are all quoted already is left as
      it is; so running the loop twice is running it once. */
  lemma {:induction false} StringifiedFixed(j: Json)
    requires OnOffQuoted(j)
    ensures Stringified(j) == j
    decreases j, 0
  {
    match j
    case JObj(f) =>
      forall i | 0 <= i < |f| ensures StringifyValue(f[i].1) == f[i].1 {
        StringifyValueFixed(f[i].1);
      }
      assert Stringified(j).fields == f;
    case JList(items) =>
      forall i | 0 <= i < |items| ensures StringifyValue(items[i]) == items[i] {
        StringifyValueFixed(items[i]);
      }
      assert Stringified(j).items == items;
    case _ =>
  }

  lemma {:induction false} StringifyValueFixed(v: Json)
    requires ValueQuoted(v)
    ensures StringifyValue(v) == v
    decreases v, 1
  {
    if !IsOnOff(v) && (v.JObj? || v.JList?) {
      StringifiedFixed(v);
    }
  }

  /** `stringify_on_off` is idempotent. */
  lemma StringifiedIdempotent(j: Json)
    ensures Stringified(Stringified(j)) == Stringified(j)
  {
    StringifiedQuoted(j);
    StringifiedFixed(Stringified(j));
  }

  // ---------------------------------------------------------------------
  // What extract_and_update promises

  /** A failing subscript ends the walk with its error. */
  lemma NavigateStops(j: Json, keys: seq<string>, n: nat)
    requires 0 < n <= |keys| && Navigate(j, keys[..n - 1]).Ok?
    requires GetItem(Navigate(j, keys[..n - 1]).value, keys[n - 1]).Err?
    ensures Navigate(j, keys) == Err(GetItem(Navigate(j, keys[..n - 1]).value, keys[n - 1]).error)
    decreases |keys|
  {
    assert keys[..n][..n - 1] == keys[..n - 1];
    if n < |keys| {
      assert keys[..|keys| - 1][..n - 1] == keys[..n - 1];
      assert keys[..|keys| - 1][n - 1] == keys[n - 1];
      NavigateStops(j, keys[..|keys| - 1], n);
    }
  }

  /** The key path is followed one segment at a time from the root:
      walking `a + b` is walking `a`, then `b` from where it ends. */
  lemma {:induction false} NavigateAppend(j: Json, a: seq<string>, b: seq<string>)
    ensures Navigate(j, a).Err? ==> Navigate(j, a + b) == Navigate(j, a)
    ensures Navigate(j, a).Ok? ==> Navigate(j, a + b) == Navigate(Navigate(j, a).value, b)
    decreases |b|
  {
    if b == [] {
      assert a + b == a;
    } else {
      var init := b[..|b| - 1];
      NavigateAppend(j, a, init);
      assert (a + b)[..|a + b| - 1] == a + init;
    }
  }

  /** A dotted path of segments without dots walks those segments. */
  lemma NavigateDotted(j: Json, keys: seq<string>)
    requires |keys| >= 1 && forall i :: 0 <= i < |keys| ==> '.' !in keys[i]
    ensures Navigate(j, Text.SplitBy(Text.Join(keys, "."), ".")) == Navigate(j, keys)
  {
    Text.SplitJoin(keys, '.');
  }

  /** The splice succeeds exactly on a dict whose `options` is a dict; it
      sets `options.config` and changes nothing else. */
  lemma SpliceConfigFacts(doc: Json, target: Json)
    ensures SpliceConfig(doc, target).Ok? <==>
      doc.JObj? && "options" in Keys(doc.fields) && ValueAt(doc.fields, "options").JObj?
    ensures SpliceConfig(doc, target).Ok? ==>
      var f := SpliceConfig(doc, target).value.fields;
      var options := ValueAt(doc.fields, "options").fields;
      && Lookup(f, "options") == Some(JObj(Put(options, "config", target)))
      && Lookup(Put(options, "config", target), "config") == Some(target)
      && (forall k :: k != "config" ==> Lookup(Put(options, "config", target), k) == Lookup(options, k))
      && (forall k :: k != "options" ==> Lookup(f, k) == Lookup(doc.fields, k))
  {
    if doc.JObj? && "options" in Keys(doc.fields) && ValueAt(doc.fields, "options").JObj? {
      var options := ValueAt(doc.fields, "options").fields;
      PutFacts(options, "config", target);
      PutFacts(doc.fields, "options", JObj(Put(options, "config", target)));
    }
  }

  /** Without a truthy `DOCUMENTATION` the builder file only has its
      `on`/`off` values quoted. */
  lemma ExtractWithoutDocumentation(inputData: Json, rmbData: Fields, inputKey: string,
                                    load: Json -> Result<Json>, dump: Json -> string, render: Json -> string)
    requires Navigate(inputData, Text.SplitBy(inputKey, ".")).Ok?
    requires var content := Lookup(rmbData, "DOCUMENTATION"); content.None? || !Truthy(content.value)
    ensures ExtractAndUpdate(inputData, JObj(rmbData), inputKey, load, dump, render) == Ok(Stringified(JObj(rmbData)))
  {
    var rmb := Stringified(JObj(rmbData));
    StringifiedShape(JObj(rmbData));
    var content := Lookup(rmbData, "DOCUMENTATION");
    if content.Some? {
      var i := KeyIndex(rmbData, "DOCUMENTATION");
      assert KeyIndex(rmb.fields, "DOCUMENTATION") == i;
      assert !Truthy(StringifyValue(rmbData[i].1));
    } else {
      assert "DOCUMENTATION" !in Keys(rmb.fields);
    }
  }

  /** A missing `XML_NAMESPACE` or `GENERATOR_VERSION` raises `KeyError`,
      the first one first. */
  lemma RequoteErrors(rmb: Fields, render: Json -> string)
    ensures "XML_NAMESPACE" !in Keys(rmb) ==> Requote(rmb, render) == Err(KeyError("XML_NAMESPACE"))
    ensures "XML_NAMESPACE" in Keys(rmb) && "GENERATOR_VERSION" !in Keys(rmb)
      ==> Requote(rmb, render) == Err(KeyError("GENERATOR_VERSION"))
  {
    if "XML_NAMESPACE" in Keys(rmb) {
      PutFacts(rmb, "XML_NAMESPACE", Quote(ValueAt(rmb, "XML_NAMESPACE"), render));
    }
  }

  /** With both keys present, the two version strings are double-quoted
      and every other entry is kept. */
  lemma RequoteFacts(rmb: Fields, render: Json -> string)
    requires "XML_NAMESPACE" in Keys(rmb) && "GENERATOR_VERSION" in Keys(rmb)
    ensures Requote(rmb, render).Ok?
    ensures var f := Requote(rmb, render).value.fields;
      && Lookup(f, "XML_NAMESPACE") == Some(Quote(ValueAt(rmb, "XML_NAMESPACE"), render))
      && Lookup(f, "GENERATOR_VERSION") == Some(Quote(ValueAt(rmb, "GENERATOR_VERSION"), render))
      && forall k :: k != "XML_NAMESPACE" && k != "GENERATOR_VERSION" ==> Lookup(f, k) == Lookup(rmb, k)
  {
    var qx := Quote(ValueAt(rmb, "XML_NAMESPACE"), render);
    var quoted := Put(rmb, "XML_NAMESPACE", qx);
    PutFacts(rmb, "XML_NAMESPACE", qx);
    var version := ValueAt(rmb, "GENERATOR_VERSION");
    assert Lookup(quoted, "GENERATOR_VERSION") == Some(version);
    var qg := Quote(version, render);
    assert Requote(rmb, render) == Ok(JObj(Put(quoted, "GENERATOR_VERSION", qg)));
    PutFacts(quoted, "GENERATOR_VERSION", qg);
  }

  /** A quoted string keeps its content. */
  lemma QuoteString(v: Json, render: Json -> string)
    requires v.JStr?
    ensures Quote(v, render) == JStr(v.s, DoubleQuoted)
    ensures PlainPython.Erase(Quote(v, render)) == PlainPython.Erase(v)
  {
  }

  /** With a truthy `DOCUMENTATION` whose text loads to a document with an
      `options` dict, the new text is the dump of that document with the
      quoted subtree as `options.config`. */
  lemma ExtractWithDocumentation(inputData: Json, rmbData: Fields, inputKey: string,
                                 load: Json -> Result<Json>, dump: Json -> string, render: Json -> string)
    requires Navigate(inputData, Text.SplitBy(inputKey, ".")).Ok?
    requires "DOCUMENTATION" in Keys(rmbData) && Truthy(ValueAt(rmbData, "DOCUMENTATION"))
    ensures var rmb := Stringified(JObj(rmbData)).fields;
      var target := Stringified(Navigate(inputData, Text.SplitBy(inputKey, ".")).value);
      var doc := load(StringifyValue(ValueAt(rmbData, "DOCUMENTATION")));
      ExtractAndUpdate(inputData, JObj(rmbData), inputKey, load, dump, render) ==
        if doc.Err? then Err(doc.error)
        else if SpliceConfig(doc.value, target).Err? then Err(SpliceConfig(doc.value, target).error)
        else Requote(Put(rmb, "DOCUMENTATION", Str(dump(SpliceConfig(doc.value, target).value))), render)
  {
    var rmb := Stringified(JObj(rmbData));
    StringifiedShape(JObj(rmbData));
    var i := KeyIndex(rmbData, "DOCUMENTATION");
    assert KeyIndex(rmb.fields, "DOCUMENTATION") == i;
    StringifiedShape(rmbData[i].1);
    assert Truthy(StringifyValue(rmbData[i].1));
  }
}
