/** The `to_argspec` filter of the scaffold_rm_facts role: the
    `DOCUMENTATION` of a module model, made plain Python, becomes the
    module's argument spec. `retrieve_metadata` and `dive` fill fresh
    dicts in loops; the result is dumped as JSON text in which the JSON
    booleans after a key are rewritten as Python's `True` and `False`. */
module ScaffoldArgspec {
  import opened Wrappers
  import opened JsonValue
  import Text
  import PlainPython

  /** `OPTIONS_METADATA`: what `retrieve_metadata` copies. */
  const OptionsMetadata: seq<string> := ["type", "elements", "default", "choices", "required"]

  /** `SUBOPTIONS_METADATA`: what an option with suboptions also copies. */
  const SuboptionsMetadata: seq<string> :=
    ["mutually_exclusive", "required_together", "required_one_of", "supports_check_mode", "required_if"]

  /** `SENSITIVE_KEYS`: options whose values must not be logged. */
  const SensitiveKeys: seq<string> := ["key_exchange", "key_value", "ntp_key", "passphrase", "password", "secret"]

  /** Every key an option's entry can hold, in the order `dive` writes
      them: the metadata, `no_log`, the suboption metadata, `options`. */
  const EntryKeys: seq<string> := OptionsMetadata + ["no_log"] + SuboptionsMetadata + ["options"]

  // ---------------------------------------------------------------------
  // retrieve_metadata

  /** `values.get(key)` when `key in values` and the value is truthy. */
  function TruthyValue(values: Fields, key: string): Option<Json> {
    if key in Keys(values) && Truthy(ValueAt(values, key)) then Some(ValueAt(values, key)) else None
  }

  /** The conditional `out[key] = data` of each metadata key, in order. */
  function MetadataEntries(values: Fields): (r: seq<Option<Json>>)
    ensures |r| == |OptionsMetadata|
  {
    seq(|OptionsMetadata|, i requires 0 <= i < |OptionsMetadata| => TruthyValue(values, OptionsMetadata[i]))
  }

  /** What `retrieve_metadata(values, out)` leaves in a fresh `out`. */
  function Metadata(values: Fields): Fields {
    Assign(OptionsMetadata, MetadataEntries(values), |OptionsMetadata|)
  }

  /** `retrieve_metadata(values, {})`. */
  method RetrieveMetadata(values: Fields) returns (out: Fields)
    ensures out == Metadata(values)
  {
    out := [];
    for n := 0 to |OptionsMetadata|
      invariant out == Assign(OptionsMetadata, MetadataEntries(values), n)
    {
      var key := OptionsMetadata[n];
      if key in Keys(values) {
        var data := ValueAt(values, key);
        if Truthy(data) {
          out := Put(out, key, data);
        }
      }
    }
  }

  // ---------------------------------------------------------------------
  // dive

  /** `val.get('suboptions')` when it is truthy. */
  function Suboptions(val: Fields): Option<Json> {
    var sub := Lookup(val, "suboptions");
    if sub.Some? && Truthy(sub.value) then sub else None
  }

  /** What `dive(obj, {})` returns: one entry per key of a dict, nothing
      for anything else. */
  function Dive(obj: Json): Fields
    decreases obj, 4
  {
    if obj.JObj? then Assign(Keys(obj.fields), DiveEntries(obj.fields), |obj.fields|) else []
  }

  /** The value `dive` stores under each key, in order. */
  function DiveEntries(fields: Fields): (r: seq<Option<Json>>)
    ensures |r| == |fields|
    ensures forall i :: 0 <= i < |fields| ==> r[i] == Some(DiveValue(fields[i].0, fields[i].1))
    decreases JObj(fields), 3
  {
    seq(|fields|, i requires 0 <= i < |fields| => Some(DiveValue(fields[i].0, fields[i].1)))
  }

  /** `result[k]` for the value `val`: a dict becomes an option entry, a
      list the dive of its dict elements, anything else stays. */
  function DiveValue(k: string, val: Json): Json
    decreases val, 2
  {
    match val
    case JObj(f) => JObj(OptionEntry(k, f))
    case JList(items) => JList(DiveList(items))
    case _ => val
  }

  /** The dict elements of a list, in order. */
  function Dicts(items: seq<Json>): (r: seq<Json>)
    ensures forall x :: x in r ==> x in items && x.JObj?
    ensures |r| <= |items|
  {
    if items == [] then []
    else
      var last := items[|items| - 1];
      Dicts(items[..|items| - 1]) + (if last.JObj? then [last] else [])
  }

  /** `[dive(elem, {}) for elem in val if isinstance(elem, dict)]`. */
  function DiveList(items: seq<Json>): (r: seq<Json>)
    ensures |r| == |Dicts(items)|
    decreases JList(items), 1
  {
    var d := Dicts(items);
    seq(|d|, i requires 0 <= i < |d| => assert d[i] in items; JObj(Dive(d[i])))
  }

  /** The entry `dive` builds for the dict option `k: val`. */
  function OptionEntry(k: string, val: Fields): Fields
    decreases JObj(val), 1
  {
    Assign(EntryKeys, EntryWrites(k, val), |EntryKeys|)
  }

  /** The conditional assignments into `result[k]`, in source order. */
  function EntryWrites(k: string, val: Fields): (r: seq<Option<Json>>)
    ensures |r| == |EntryKeys|
    decreases JObj(val), 0
  {
    var sub := Suboptions(val);
    MetadataEntries(val)
      + [if k in SensitiveKeys then Some(JBool(true)) else None]
      + seq(|SuboptionsMetadata|, i requires 0 <= i < |SuboptionsMetadata| =>
          if sub.Some? then Lookup(val, SuboptionsMetadata[i]) else None)
      + [if sub.Some? then Some(JObj(Dive(sub.value))) else None]
  }

  /** `dive(obj, {})`. */
  method DiveInto(obj: Json) returns (result: Fields)
    ensures result == Dive(obj)
    decreases obj, 4
  {
    result := [];
    if obj.JObj? {
      var fields := obj.fields;
      for n := 0 to |fields|
        invariant result == Assign(Keys(fields), DiveEntries(fields), n)
      {
        var v := DiveValueOf(fields[n].0, fields[n].1);
        result := Put(result, fields[n].0, v);
      }
    }
  }

  /** One loop turn of `dive`: the value stored under `k`. */
  method DiveValueOf(k: string, val: Json) returns (r: Json)
    ensures r == DiveValue(k, val)
    decreases val, 2
  {
    match val
    case JObj(f) =>
      var entry := BuildEntry(k, f);
      r := JObj(entry);
    case JList(items) =>
      var dived := DiveElements(items);
      r := JList(dived);
    case _ =>
      r := val;
  }

  /** The list comprehension over a list value. */
  method DiveElements(items: seq<Json>) returns (r: seq<Json>)
    ensures r == DiveList(items)
    decreases JList(items), 1
  {
    r := [];
    for n := 0 to |items|
      invariant r == DiveList(items[..n])
    {
      assert items[..n + 1][..n] == items[..n];
      if items[n].JObj? {
        var sub := DiveInto(items[n]);
        r := r + [JObj(sub)];
      }
    }
    assert items[..|items|] == items;
  }

  /** The entry of a dict option: metadata, `no_log` for a sensitive key,
      and, under non-empty suboptions, their metadata and `options`. */
  method BuildEntry(k: string, val: Fields) returns (entry: Fields)
    ensures entry == OptionEntry(k, val)
    decreases JObj(val), 1
  {
    entry := RetrieveMetadata(val);
    if k in SensitiveKeys {
      entry := Put(entry, "no_log", JBool(true));
    }
    EntryHead(k, val);
    var suboptions := Lookup(val, "suboptions");
    if suboptions.Some? && Truthy(suboptions.value) {
      for n := 0 to |SuboptionsMetadata|
        invariant entry == Assign(EntryKeys, EntryWrites(k, val), 6 + n)
      {
        EntrySuboptionStep(k, val, n);
        var item := SuboptionsMetadata[n];
        if item in Keys(val) {
          entry := Put(entry, item, ValueAt(val, item));
        }
      }
      var options := DiveInto(suboptions.value);
      EntryOptions(k, val);
      entry := Put(entry, "options", JObj(options));
    } else {
      EntryWithoutSuboptions(k, val);
    }
  }

  /** The first six writes: the metadata, then `no_log`. */
  lemma EntryHead(k: string, val: Fields)
    ensures Assign(EntryKeys, EntryWrites(k, val), 6) ==
      if k in SensitiveKeys then Put(Metadata(val), "no_log", JBool(true)) else Metadata(val)
  {
    var writes := EntryWrites(k, val);
    assert EntryKeys[..5] == OptionsMetadata[..5] && writes[..5] == MetadataEntries(val)[..5];
    AssignPrefix(OptionsMetadata, MetadataEntries(val), EntryKeys, writes, 5);
  }

  /** One turn of the suboption metadata loop. */
  lemma EntrySuboptionStep(k: string, val: Fields, n: nat)
    requires n < |SuboptionsMetadata| && Suboptions(val).Some?
    ensures Assign(EntryKeys, EntryWrites(k, val), 7 + n) ==
      var before := Assign(EntryKeys, EntryWrites(k, val), 6 + n);
      if SuboptionsMetadata[n] in Keys(val) then Put(before, SuboptionsMetadata[n], ValueAt(val, SuboptionsMetadata[n]))
      else before
  {
    assert EntryKeys[6 + n] == SuboptionsMetadata[n];
    assert EntryWrites(k, val)[6 + n] == Lookup(val, SuboptionsMetadata[n]);
  }

  /** The last write: `options`, under non-empty suboptions. */
  lemma EntryOptions(k: string, val: Fields)
    requires Suboptions(val).Some?
    ensures OptionEntry(k, val) ==
      Put(Assign(EntryKeys, EntryWrites(k, val), 11), "options", JObj(Dive(Suboptions(val).value)))
  {
  }

  /** Without suboptions nothing is written after `no_log`. */
  lemma EntryWithoutSuboptions(k: string, val: Fields)
    requires Suboptions(val).None?
    ensures OptionEntry(k, val) == Assign(EntryKeys, EntryWrites(k, val), 6)
  {
    var writes := EntryWrites(k, val);
    assert forall i :: 6 <= i < 12 ==> writes[i].None?;
    AssignSkip(EntryKeys, writes, 6, 12);
  }

  // ---------------------------------------------------------------------
  // to_argspec

  /** `to_argspec(spec)` up to the JSON dump: the dive of the plain
      `DOCUMENTATION['options']`. */
  function ToArgspecDict(spec: Json): Result<Fields> {
    var present :- Contains(spec, "DOCUMENTATION");
    if !present then Err(FilterError("missing required element 'DOCUMENTATION' in model"))
    else
      var doc :- GetItem(spec, "DOCUMENTATION");
      if !doc.JObj? then Err(FilterError("value of element 'DOCUMENTATION' should be of type dict"))
      else
        var options :- GetItem(PlainPython.ToPlain(doc), "options");
        Ok(Dive(options))
  }

  /** `to_argspec(spec)`, given the text `json.dumps(result, indent=1)`
      writes for a dict. */
  function ToArgspec(spec: Json, dumps: Fields -> string): Result<string> {
    var result :- ToArgspecDict(spec);
    Ok(PythonBooleans(dumps(result)))
  }

  // ---------------------------------------------------------------------
  // The true/false rewrite

  /** A match of `":\s*<word>` at the start of `t`. */
  predicate MatchAt(t: string, word: string) {
    |t| >= 2 && t[0] == '"' && t[1] == ':' && Text.StartsWith(Text.DropSpaces(t[2..]), word)
  }

  /** No match of `":\s*<word>` anywhere in `t`. */
  predicate NoMatch(t: string, word: string) {
    forall i :: 0 <= i < |t| ==> !MatchAt(t[i..], word)
  }

  /** `re.sub(r'":\s*<word>', '": <repl>', t)`: left to right, each match
      is replaced and the scan resumes after it. */
  function Sub(t: string, word: string, repl: string): string
    decreases |t|
  {
    if t == [] then []
    else if MatchAt(t, word) then "\": " + repl + Sub(Text.DropSpaces(t[2..])[|word|..], word, repl)
    else [t[0]] + Sub(t[1..], word, repl)
  }

  /** The two rewrites `to_argspec` applies to the dumped text. */
  function PythonBooleans(text: string): string {
    Sub(Sub(text, "true", "True"), "false", "False")
  }

  // ---------------------------------------------------------------------
  // What the filter promises

  /** `retrieve_metadata` copies exactly the metadata keys whose values
      are truthy: no other key, and no `required: False` or `default: 0`. */
  lemma MetadataFacts(values: Fields, key: string)
    ensures Lookup(Metadata(values), key) == if key in OptionsMetadata then TruthyValue(values, key) else None
  {
    var entries := MetadataEntries(values);
    assert forall a, b :: 0 <= a < b < |OptionsMetadata| ==> OptionsMetadata[a] != OptionsMetadata[b];
    AssignNamed(OptionsMetadata, entries, 0);
    if key in OptionsMetadata {
      var i :| 0 <= i < |OptionsMetadata| && OptionsMetadata[i] == key;
      AssignNamed(OptionsMetadata, entries, i);
    }
  }

  /** The keys of an entry are all distinct, so each write lands on its
      own key. */
  lemma EntryKeysDistinct()
    ensures forall a, b :: 0 <= a < b < |EntryKeys| ==> EntryKeys[a] != EntryKeys[b]
  {
  }

  /** An option entry keeps exactly the truthy metadata. */
  lemma OptionEntryMetadata(k: string, val: Fields)
    ensures forall key :: key in OptionsMetadata ==> Lookup(OptionEntry(k, val), key) == TruthyValue(val, key)
  {
    var writes := EntryWrites(k, val);
    EntryKeysDistinct();
    AssignNamed(EntryKeys, writes, 0);
    AssignNamed(EntryKeys, writes, 1);
    AssignNamed(EntryKeys, writes, 2);
    AssignNamed(EntryKeys, writes, 3);
    AssignNamed(EntryKeys, writes, 4);
  }

  /** A sensitive key, and only one, is flagged `no_log: True`. */
  lemma OptionEntryNoLog(k: string, val: Fields)
    ensures Lookup(OptionEntry(k, val), "no_log") == if k in SensitiveKeys then Some(JBool(true)) else None
  {
    EntryKeysDistinct();
    AssignNamed(EntryKeys, EntryWrites(k, val), 5);
  }

  /** Only non-empty suboptions give an option entry `options`: their
      own dive. */
  lemma OptionEntryOptions(k: string, val: Fields)
    ensures Lookup(OptionEntry(k, val), "options") ==
      if Suboptions(val).Some? then Some(JObj(Dive(Suboptions(val).value))) else None
  {
    EntryKeysDistinct();
    AssignNamed(EntryKeys, EntryWrites(k, val), 11);
  }

  /** Only an option with non-empty suboptions copies the suboption
      metadata it carries. */
  lemma OptionEntrySuboptionMetadata(k: string, val: Fields)
    ensures forall key :: key in SuboptionsMetadata ==>
      Lookup(OptionEntry(k, val), key) == if Suboptions(val).Some? then Lookup(val, key) else None
  {
    var writes := EntryWrites(k, val);
    EntryKeysDistinct();
    AssignNamed(EntryKeys, writes, 6);
    AssignNamed(EntryKeys, writes, 7);
    AssignNamed(EntryKeys, writes, 8);
    AssignNamed(EntryKeys, writes, 9);
    AssignNamed(EntryKeys, writes, 10);
  }

  /** An option entry holds no key besides those it can write. */
  lemma OptionEntryKeys(k: string, val: Fields)
    ensures forall key :: key in Keys(OptionEntry(k, val)) ==> key in EntryKeys
  {
    EntryKeysDistinct();
    AssignNamed(EntryKeys, EntryWrites(k, val), 0);
  }

  /** The dive of a dict has its keys, and each holds the dive of its
      value. */
  lemma DiveKeys(fields: Fields, i: nat)
    requires DistinctKeys(fields) && i < |fields|
    ensures forall k :: k in Keys(Dive(JObj(fields))) <==> k in Keys(fields)
    ensures Lookup(Dive(JObj(fields)), fields[i].0) == Some(DiveValue(fields[i].0, fields[i].1))
  {
    var names := Keys(fields);
    var entries := DiveEntries(fields);
    AssignNamed(names, entries, i);
    AssignKeys(names, entries, |fields|);
    forall k | k in names ensures Written(names, entries, |fields|, k) {
      var j :| 0 <= j < |fields| && names[j] == k;
      assert entries[j].Some?;
    }
  }

  /** Lists keep exactly their dict elements, in order. */
  lemma {:induction false} DictsFacts(items: seq<Json>)
    ensures forall x :: x in Dicts(items) <==> x in items && x.JObj?
    ensures (forall j :: 0 <= j < |items| ==> items[j].JObj?) ==> Dicts(items) == items
    ensures (forall j :: 0 <= j < |items| ==> !items[j].JObj?) ==> Dicts(items) == []
    decreases |items|
  {
    if items != [] {
      var init := items[..|items| - 1];
      DictsFacts(init);
      assert items == init + [items[|items| - 1]];
    }
  }

  /** The filter's errors: no `DOCUMENTATION`, a `DOCUMENTATION` that is
      not a dict, and no `options` in it. */
  lemma ToArgspecErrors(spec: Fields)
    ensures "DOCUMENTATION" !in Keys(spec) ==>
      ToArgspecDict(JObj(spec)) == Err(FilterError("missing required element 'DOCUMENTATION' in model"))
    ensures "DOCUMENTATION" in Keys(spec) && !ValueAt(spec, "DOCUMENTATION").JObj? ==>
      ToArgspecDict(JObj(spec)) == Err(FilterError("value of element 'DOCUMENTATION' should be of type dict"))
    ensures "DOCUMENTATION" in Keys(spec) && ValueAt(spec, "DOCUMENTATION").JObj?
      && "options" !in Keys(ValueAt(spec, "DOCUMENTATION").fields)
      ==> ToArgspecDict(JObj(spec)) == Err(KeyError("options"))
  {
    if "DOCUMENTATION" in Keys(spec) && ValueAt(spec, "DOCUMENTATION").JObj? {
      PlainPython.ToPlainShape(ValueAt(spec, "DOCUMENTATION"));
    }
  }

  /** Otherwise the filter dives the plain options. */
  lemma ToArgspecOk(spec: Fields)
    requires "DOCUMENTATION" in Keys(spec) && ValueAt(spec, "DOCUMENTATION").JObj?
    requires "options" in Keys(ValueAt(spec, "DOCUMENTATION").fields)
    ensures var plain := PlainPython.ToPlain(ValueAt(spec, "DOCUMENTATION"));
      && plain.JObj? && "options" in Keys(plain.fields)
      && ToArgspecDict(JObj(spec)) == Ok(Dive(ValueAt(plain.fields, "options")))
  {
    PlainPython.ToPlainShape(ValueAt(spec, "DOCUMENTATION"));
  }

  // ---------------------------------------------------------------------
  // What the rewrite promises

  /** A word the rewrite can look for: not empty, without a quote. */
  predicate WordOk(word: string) {
    word != [] && '"' !in word
  }

  /** A replacement that cannot itself start a match of `word`. */
  predicate ReplOk(repl: string, word: string) {
    repl != [] && word != [] && !Text.IsSpace(repl[0]) && repl[0] != word[0] && '"' !in repl
  }

  /** Where a match at the start of `t` ends. */
  function MatchEnd(t: string, word: string): nat
    requires MatchAt(t, word)
  {
    |t| - |Text.DropSpaces(t[2..])| + |word|
  }

  /** Whether a match starts depends only on the text up to its end. */
  lemma MatchPrefix(a: string, b: string, word: string)
    requires WordOk(word) && MatchAt(a, word)
    requires MatchEnd(a, word) <= |b| && a[..MatchEnd(a, word)] == b[..MatchEnd(a, word)]
    ensures MatchAt(b, word)
  {
    var n := MatchEnd(a, word);
    var da := Text.DropSpaces(a[2..]);
    assert 2 <= n <= |a|;
    assert a[0] == a[..n][0] == b[..n][0] == b[0];
    assert a[1] == a[..n][1] == b[..n][1] == b[1];
    forall j | 0 <= j < n - 2 ensures a[2..][j] == b[2..][j] {
      assert a[2..][j] == a[..n][j + 2] == b[..n][j + 2] == b[2..][j];
    }
    assert a[2..][..n - 2] == b[2..][..n - 2];
    Text.DropSpacesPrefix(a[2..], b[2..], n - 2, |word|);
    assert Text.DropSpaces(b[2..])[..|word|] == da[..|word|] == word;
  }

  /** Before a match there is no quote after its first character. */
  lemma MatchQuotes(t: string, word: string)
    requires WordOk(word) && MatchAt(t, word)
    ensures MatchEnd(t, word) <= |t|
    ensures forall j :: 1 <= j < MatchEnd(t, word) ==> t[j] != '"'
  {
    var rest := Text.DropSpaces(t[2..]);
    Text.DropSpacesSplit(t[2..]);
    forall j | 1 <= j < MatchEnd(t, word) ensures t[j] != '"' {
      if 2 <= j < |t| - |rest| {
        assert Text.IsSpace(t[2..][j - 2]);
      } else if j >= |t| - |rest| {
        assert t[j] == rest[j - (|t| - |rest|)] == word[j - (|t| - |rest|)];
      }
    }
  }

  /** The rewritten text agrees with the original up to its first quote. */
  lemma {:induction false} SubPrefix(s: string, word: string, repl: string, k: nat)
    requires k <= |Sub(s, word, repl)|
    requires forall j :: 0 <= j < k ==> Sub(s, word, repl)[j] != '"'
    ensures k <= |s| && Sub(s, word, repl)[..k] == s[..k]
    decreases |s|
  {
    if k > 0 {
      assert Sub(s, word, repl)[0] != '"';
      assert s != [] && !MatchAt(s, word);
      var rest := Sub(s[1..], word, repl);
      assert Sub(s, word, repl) == [s[0]] + rest;
      forall j | 0 <= j < k - 1 ensures rest[j] != '"' {
        assert rest[j] == Sub(s, word, repl)[j + 1];
      }
      SubPrefix(s[1..], word, repl, k - 1);
      assert Sub(s, word, repl)[..k] == [s[0]] + rest[..k - 1];
    }
  }

  /** A text has no match when none starts before `|a|` and its tail
      after `a` has none. */
  lemma NoMatchAppend(a: string, b: string, other: string)
    requires forall i :: 0 <= i < |a| ==> !MatchAt((a + b)[i..], other)
    requires NoMatch(b, other)
    ensures NoMatch(a + b, other)
  {
    forall i | |a| <= i < |a + b| ensures !MatchAt((a + b)[i..], other) {
      assert (a + b)[i..] == b[i - |a|..];
    }
  }

  /** A text without a match has none in any of its tails. */
  lemma NoMatchSuffix(t: string, m: nat, other: string)
    requires m <= |t| && NoMatch(t, other)
    ensures NoMatch(t[m..], other)
  {
    forall i | 0 <= i < |t[m..]| ensures !MatchAt(t[m..][i..], other) {
      assert t[m..][i..] == t[m + i..];
    }
  }

  /** The replacement text starts no match. */
  lemma ReplacementNoMatch(repl: string, tail: string, other: string)
    requires WordOk(other) && ReplOk(repl, other)
    ensures forall i :: 0 <= i < |"\": " + repl| ==> !MatchAt(("\": " + repl + tail)[i..], other)
  {
    var head: string := "\": " + repl;
    var out := head + tail;
    forall i | 0 <= i < |head| ensures !MatchAt(out[i..], other) {
      if i == 0 {
        assert out[2..] == [' '] + (repl + tail);
        assert Text.DropSpaces(out[2..]) == repl + tail;
      } else {
        assert out[i] == head[i];
      }
    }
  }

  /** Where the scan does not match `word`, the rewritten text starts no
      match of `other` unless the original did. */
  lemma FirstNoMatch(t: string, word: string, repl: string, other: string)
    requires WordOk(word) && WordOk(other) && t != [] && !MatchAt(t, word)
    requires other == word || !MatchAt(t, other)
    ensures !MatchAt(Sub(t, word, repl), other)
  {
    var out := Sub(t, word, repl);
    var rest := Sub(t[1..], word, repl);
    assert out == [t[0]] + rest;
    if MatchAt(out, other) {
      var n := MatchEnd(out, other);
      MatchQuotes(out, other);
      forall j | 0 <= j < n - 1 ensures rest[j] != '"' {
        assert rest[j] == out[j + 1];
      }
      SubPrefix(t[1..], word, repl, n - 1);
      forall j | 0 <= j < n ensures out[j] == t[j] {
        if j > 0 {
          assert out[j] == rest[..n - 1][j - 1] == t[1..][..n - 1][j - 1];
        }
      }
      assert out[..n] == t[..n];
      MatchPrefix(out, t, other);
      assert false;
    }
  }

  /** After the rewrite of `word`, no match of `word` is left, and no
      match of a word `other` appears that was not there before. */
  lemma {:induction false} SubNoMatch(t: string, word: string, repl: string, other: string)
    requires WordOk(word) && WordOk(other) && ReplOk(repl, word) && ReplOk(repl, other)
    requires other == word || NoMatch(t, other)
    ensures NoMatch(Sub(t, word, repl), other)
    decreases |t|
  {
    if t == [] {
    } else if MatchAt(t, word) {
      var rest := Text.DropSpaces(t[2..])[|word|..];
      Text.DropSpacesSplit(t[2..]);
      if other != word {
        assert rest == t[|t| - |rest|..];
        NoMatchSuffix(t, |t| - |rest|, other);
      }
      SubNoMatch(rest, word, repl, other);
      ReplacementNoMatch(repl, Sub(rest, word, repl), other);
      NoMatchAppend("\": " + repl, Sub(rest, word, repl), other);
    } else {
      if other != word {
        NoMatchSuffix(t, 1, other);
        assert t[0..] == t;
      }
      SubNoMatch(t[1..], word, repl, other);
      FirstNoMatch(t, word, repl, other);
      assert Sub(t, word, repl) == [t[0]] + Sub(t[1..], word, repl);
      assert Sub(t, word, repl)[0..] == Sub(t, word, repl);
      NoMatchAppend([t[0]], Sub(t[1..], word, repl), other);
    }
  }

  /** A text without a match is left as it is. */
  lemma {:induction false} SubUnchanged(t: string, word: string, repl: string)
    requires NoMatch(t, word)
    ensures Sub(t, word, repl) == t
    decreases |t|
  {
    if t != [] {
      assert !MatchAt(t[0..], word) && t[0..] == t;
      forall i | 0 <= i < |t[1..]| ensures !MatchAt(t[1..][i..], word) {
        assert t[1..][i..] == t[i + 1..];
      }
      SubUnchanged(t[1..], word, repl);
    }
  }

  /** After both rewrites the text holds no JSON boolean after a key. */
  lemma PythonBooleansFacts(text: string)
    ensures NoMatch(PythonBooleans(text), "true")
    ensures NoMatch(PythonBooleans(text), "false")
    ensures NoMatch(text, "true") && NoMatch(text, "false") ==> PythonBooleans(text) == text
  {
    var once := Sub(text, "true", "True");
    SubNoMatch(text, "true", "True", "true");
    SubNoMatch(once, "false", "False", "true");
    SubNoMatch(once, "false", "False", "false");
    if NoMatch(text, "true") && NoMatch(text, "false") {
      SubUnchanged(text, "true", "True");
      SubUnchanged(text, "false", "False");
    }
  }
}
