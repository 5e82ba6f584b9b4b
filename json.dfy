/** The JSON/YAML-like values the filter plugins and generators work on:
    Python's `None`, `bool`, `int`, `str`, `list` and `dict`.

    A `dict` is an ordered sequence of key/value pairs, because Python dicts
    keep insertion order and the generated documents depend on it. Strings
    carry the Python class they came in: a plain `str`, one of Ansible's
    text wrappers (`AnsibleUnsafeText`, `AnsibleUnicode`) or ruamel's
    `DoubleQuotedScalarString`; all three compare equal by content. */
module JsonValue {
  import opened Wrappers
  import Text

  datatype StrStyle = Plain | AnsibleText | DoubleQuoted

  datatype Json =
    | JNull
    | JBool(b: bool)
    | JInt(i: int)
    | JStr(s: string, style: StrStyle)
    | JList(items: seq<Json>)
    | JObj(fields: seq<(string, Json)>)

  type Fields = seq<(string, Json)>

  /** A plain Python `str`. */
  function Str(s: string): Json {
    JStr(s, Plain)
  }

  /** A list of plain strings. */
  function StrList(names: seq<string>): (r: Json)
    ensures r.JList? && |r.items| == |names|
    ensures forall i :: 0 <= i < |names| ==> r.items[i] == Str(names[i])
  {
    JList(seq(|names|, i requires 0 <= i < |names| => Str(names[i])))
  }

  /** Python's `j == s` for a string `s`: any str subclass with that content. */
  predicate IsStr(j: Json, s: string) {
    j.JStr? && j.s == s
  }

  /** Python's truth value of `j` (`if j:`). */
  predicate Truthy(j: Json) {
    match j
    case JNull => false
    case JBool(b) => b
    case JInt(i) => i != 0
    case JStr(s, _) => s != ""
    case JList(items) => items != []
    case JObj(fields) => fields != []
  }

  // ---------------------------------------------------------------------
  // dict operations

  /** The keys of a dict, in insertion order. */
  function Keys(fields: Fields): (ks: seq<string>)
    ensures |ks| == |fields|
    ensures forall i :: 0 <= i < |fields| ==> ks[i] == fields[i].0
  {
    seq(|fields|, i requires 0 <= i < |fields| => fields[i].0)
  }

  /** Every key occurs once: what a Python dict always satisfies. */
  predicate DistinctKeys(fields: Fields) {
    forall i, j :: 0 <= i < j < |fields| ==> fields[i].0 != fields[j].0
  }

  /** All dicts nested in `j` have distinct keys. */
  predicate WellFormed(j: Json) {
    match j
    case JList(items) => forall i :: 0 <= i < |items| ==> WellFormed(items[i])
    case JObj(fields) =>
      DistinctKeys(fields) && forall i :: 0 <= i < |fields| ==> WellFormed(fields[i].1)
    case _ => true
  }

  /** The position of the first entry with key `k`. */
  function KeyIndex(fields: Fields, k: string): (i: nat)
    requires k in Keys(fields)
    ensures i < |fields| && fields[i].0 == k
    ensures forall j :: 0 <= j < i ==> fields[j].0 != k
  {
    if fields[0].0 == k then 0 else
      assert Keys(fields[1..]) == Keys(fields)[1..];
      1 + KeyIndex(fields[1..], k)
  }

  /** `d.get(k)` as an option: the value stored under `k`. */
  function Lookup(fields: Fields, k: string): (r: Option<Json>)
    ensures r.Some? <==> k in Keys(fields)
    ensures r.Some? ==> r == Some(fields[KeyIndex(fields, k)].1)
  {
    if k in Keys(fields) then Some(fields[KeyIndex(fields, k)].1) else None
  }

  /** `d[key]`: the value stored under a key `d` holds. */
  function ValueAt(d: Fields, key: string): Json
    requires key in Keys(d)
  {
    d[KeyIndex(d, key)].1
  }

  /** `d[k] = v`: replaces the value in place when `k` is present, appends
      the pair otherwise. */
  function Put(fields: Fields, k: string, v: Json): (r: Fields)
  {
    if k in Keys(fields) then fields[KeyIndex(fields, k) := (k, v)] else fields + [(k, v)]
  }

  /** After `d[k] = v`, `k` reads `v`, every other key reads what it read
      before, and the keys are the old ones plus `k` at the end if new. */
  lemma PutFacts(fields: Fields, k: string, v: Json)
    ensures Keys(Put(fields, k, v)) == if k in Keys(fields) then Keys(fields) else Keys(fields) + [k]
    ensures Lookup(Put(fields, k, v), k) == Some(v)
    ensures forall k' :: k' != k ==> Lookup(Put(fields, k, v), k') == Lookup(fields, k')
    ensures DistinctKeys(fields) ==> DistinctKeys(Put(fields, k, v))
  {
    var r := Put(fields, k, v);
    if k in Keys(fields) {
      assert Keys(r) == Keys(fields);
      forall k' | k' != k ensures Lookup(r, k') == Lookup(fields, k') {
        if k' in Keys(fields) {
          var i := KeyIndex(fields, k');
          assert r[i] == fields[i];
          assert forall j :: 0 <= j < i ==> r[j].0 == fields[j].0;
          assert KeyIndex(r, k') == i;
        }
      }
    } else {
      assert Keys(r) == Keys(fields) + [k];
      assert KeyIndex(r, k) == |fields|;
      forall k' | k' != k ensures Lookup(r, k') == Lookup(fields, k') {
        if k' in Keys(fields) {
          var i := KeyIndex(fields, k');
          assert r[i] == fields[i];
          assert forall j :: 0 <= j < i ==> r[j] == fields[j];
          assert KeyIndex(r, k') == i;
        }
      }
    }
  }

  /** `d[k] = v` keeps the keys distinct. */
  lemma PutDistinct(fields: Fields, k: string, v: Json)
    requires DistinctKeys(fields)
    ensures DistinctKeys(Put(fields, k, v))
  {
    PutFacts(fields, k, v);
  }

  /** What one key reads after `d[k] = v`. */
  lemma PutLookup(fields: Fields, k: string, v: Json, k': string)
    ensures Lookup(Put(fields, k, v), k') == if k' == k then Some(v) else Lookup(fields, k')
  {
    PutFacts(fields, k, v);
  }

  /** A dict display with three distinct keys reads back its values. */
  lemma Display3(a: string, b: string, c: string, va: Json, vb: Json, vc: Json)
    requires a != b && a != c && b != c
    ensures var d := [(a, va), (b, vb), (c, vc)];
      Keys(d) == [a, b, c] && Lookup(d, a) == Some(va) && Lookup(d, b) == Some(vb) && Lookup(d, c) == Some(vc)
  {
    var d := [(a, va), (b, vb), (c, vc)];
    assert Keys(d) == [a, b, c];
    assert KeyIndex(d, b) == 1;
    assert KeyIndex(d, c) == 2;
  }

  /** A dict made of two parts with no key in common: a key reads its
      value in the part that holds it. */
  lemma LookupAppend(a: Fields, b: Fields, k: string)
    ensures Keys(a + b) == Keys(a) + Keys(b)
    ensures Lookup(a + b, k) == if k in Keys(a) then Lookup(a, k) else Lookup(b, k)
  {
    var d := a + b;
    assert Keys(d) == Keys(a) + Keys(b);
    if k in Keys(a) {
      var i := KeyIndex(a, k);
      assert d[i] == a[i];
      assert forall j :: 0 <= j < i ==> d[j] == a[j];
      assert KeyIndex(d, k) == i;
    } else if k in Keys(b) {
      var i := KeyIndex(b, k);
      assert d[|a| + i] == b[i];
      assert forall j :: 0 <= j < |a| ==> d[j].0 == Keys(a)[j];
      assert forall j :: |a| <= j < |a| + i ==> d[j] == b[j - |a|];
      assert KeyIndex(d, k) == |a| + i;
    }
  }

  /** `d.update(other)`: `d[k] = v` for every pair of `other`, in order. */
  function Update(fields: Fields, other: Fields): (r: Fields)
    decreases |other|
  {
    if other == [] then fields else Update(Put(fields, other[0].0, other[0].1), other[1..])
  }

  /** The keys of a non-empty dict: the first key, then the others. */
  lemma KeysTail(fields: Fields)
    requires fields != []
    ensures Keys(fields) == [fields[0].0] + Keys(fields[1..])
  {
  }

  /** The keys after `d.update(other)` are those of `d` followed by the new
      ones of `other`; a key that `other` does not mention is untouched. */
  lemma {:induction false} UpdateFacts(fields: Fields, other: Fields)
    ensures forall k :: k in Keys(Update(fields, other)) <==> k in Keys(fields) || k in Keys(other)
    ensures forall k :: k !in Keys(other) ==> Lookup(Update(fields, other), k) == Lookup(fields, k)
    ensures DistinctKeys(fields) ==> DistinctKeys(Update(fields, other))
    ensures Keys(fields) <= Keys(Update(fields, other))
    decreases |other|
  {
    if other != [] {
      var p := Put(fields, other[0].0, other[0].1);
      PutFacts(fields, other[0].0, other[0].1);
      UpdateFacts(p, other[1..]);
      KeysTail(other);
    }
  }

  /** The dict a loop builds by `d[names[i]] = entries[i]` for each `i`
      below `n` whose entry is present, starting from `{}`. */
  function Assign(names: seq<string>, entries: seq<Option<Json>>, n: nat): Fields
    requires n <= |names| == |entries|
  {
    if n == 0 then []
    else
      var data := Assign(names, entries, n - 1);
      if entries[n - 1].Some? then Put(data, names[n - 1], entries[n - 1].value) else data
  }

  /** Some turn below `n` writes key `k`. */
  predicate Written(names: seq<string>, entries: seq<Option<Json>>, n: nat, k: string)
    requires n <= |names| == |entries|
  {
    exists i :: 0 <= i < n && entries[i].Some? && names[i] == k
  }

  /** Some turn below `n` writes `v` under key `k`. */
  predicate WrittenWith(names: seq<string>, entries: seq<Option<Json>>, n: nat, k: string, v: Json)
    requires n <= |names| == |entries|
  {
    exists i :: 0 <= i < n && entries[i] == Some(v) && names[i] == k
  }

  /** The keys of the built dict are the names of the present entries. */
  lemma {:induction false} AssignKeys(names: seq<string>, entries: seq<Option<Json>>, n: nat)
    requires n <= |names| == |entries|
    ensures forall k :: k in Keys(Assign(names, entries, n)) <==> Written(names, entries, n, k)
    decreases n
  {
    if n > 0 {
      AssignKeys(names, entries, n - 1);
      var data := Assign(names, entries, n - 1);
      if entries[n - 1].Some? {
        PutFacts(data, names[n - 1], entries[n - 1].value);
      }
      forall k | Written(names, entries, n, k)
        ensures Written(names, entries, n - 1, k) || (entries[n - 1].Some? && names[n - 1] == k)
      {
        var i :| 0 <= i < n && entries[i].Some? && names[i] == k;
        if i < n - 1 {
          assert Written(names, entries, n - 1, k);
        }
      }
    }
  }

  /** Each key of the built dict holds the entry of a turn that wrote
      it: a later turn with the same name replaces an earlier one. */
  lemma {:induction false} AssignValues(names: seq<string>, entries: seq<Option<Json>>, n: nat)
    requires n <= |names| == |entries|
    ensures forall k :: k in Keys(Assign(names, entries, n)) ==>
      WrittenWith(names, entries, n, k, Lookup(Assign(names, entries, n), k).value)
    decreases n
  {
    if n > 0 {
      AssignValues(names, entries, n - 1);
      var data := Assign(names, entries, n - 1);
      var r := Assign(names, entries, n);
      if entries[n - 1].Some? {
        PutFacts(data, names[n - 1], entries[n - 1].value);
      }
      forall k | k in Keys(r) ensures WrittenWith(names, entries, n, k, Lookup(r, k).value) {
        if entries[n - 1].Some? && k == names[n - 1] {
          assert entries[n - 1] == Some(Lookup(r, k).value);
        } else {
          var v := Lookup(r, k).value;
          assert WrittenWith(names, entries, n - 1, k, v);
          var i :| 0 <= i < n - 1 && entries[i] == Some(v) && names[i] == k;
          assert WrittenWith(names, entries, n, k, v);
        }
      }
    }
  }

  /** The built dict never holds a key twice. */
  lemma {:induction false} AssignDistinct(names: seq<string>, entries: seq<Option<Json>>, n: nat)
    requires n <= |names| == |entries|
    ensures DistinctKeys(Assign(names, entries, n))
    decreases n
  {
    if n > 0 {
      AssignDistinct(names, entries, n - 1);
      if entries[n - 1].Some? {
        PutDistinct(Assign(names, entries, n - 1), names[n - 1], entries[n - 1].value);
      }
    }
  }

  /** The last turn below `n` that writes `k` decides what `k` reads:
      a later `d[k] = v` replaces an earlier one. */
  lemma {:induction false} AssignLast(names: seq<string>, entries: seq<Option<Json>>, n: nat, i: nat, k: string)
    requires i < n <= |names| == |entries| && entries[i].Some? && names[i] == k
    requires forall j :: i < j < n && entries[j].Some? ==> names[j] != k
    ensures Lookup(Assign(names, entries, n), k) == entries[i]
    decreases n
  {
    var data := Assign(names, entries, n - 1);
    if entries[n - 1].Some? {
      PutLookup(data, names[n - 1], entries[n - 1].value, k);
    }
    if n - 1 > i {
      AssignLast(names, entries, n - 1, i, k);
    }
  }

  /** Assign reads only the first `n` names and entries. */
  lemma {:induction false} AssignPrefix(names: seq<string>, entries: seq<Option<Json>>,
                                        names2: seq<string>, entries2: seq<Option<Json>>, n: nat)
    requires n <= |names| == |entries| && n <= |names2| == |entries2|
    requires names[..n] == names2[..n] && entries[..n] == entries2[..n]
    ensures Assign(names, entries, n) == Assign(names2, entries2, n)
    decreases n
  {
    if n > 0 {
      assert names[..n - 1] == names2[..n - 1] && entries[..n - 1] == entries2[..n - 1];
      assert names[n - 1] == names2[n - 1] && entries[n - 1] == entries2[n - 1];
      AssignPrefix(names, entries, names2, entries2, n - 1);
    }
  }

  /** Entries that write nothing leave the dict as it is. */
  lemma {:induction false} AssignSkip(names: seq<string>, entries: seq<Option<Json>>, n: nat, m: nat)
    requires n <= m <= |names| == |entries|
    requires forall i :: n <= i < m ==> entries[i].None?
    ensures Assign(names, entries, m) == Assign(names, entries, n)
    decreases m
  {
    if n < m {
      AssignSkip(names, entries, n, m - 1);
    }
  }

  lemma AssignNamed(names: seq<string>, entries: seq<Option<Json>>, i: nat)
    requires i < |names| == |entries|
    requires forall a, b :: 0 <= a < b < |names| ==> names[a] != names[b]
    ensures Lookup(Assign(names, entries, |names|), names[i]) == entries[i]
    ensures forall k :: k in Keys(Assign(names, entries, |names|)) ==> k in names
  {
    AssignKeys(names, entries, |names|);
    if entries[i].Some? {
      AssignLast(names, entries, |names|, i, names[i]);
    } else if Written(names, entries, |names|, names[i]) {
      var j :| 0 <= j < |names| && entries[j].Some? && names[j] == names[i];
      assert false;
    }
  }

  /** The dict a loop builds by `d[names[i]] = rs[i]` for each `i` below
      `n`, starting from `{}`, where computing `rs[i]` may raise: the
      first failure is the loop's result. */
  function AssignAll(names: seq<string>, rs: seq<Result<Json>>, n: nat): Result<Fields>
    requires n <= |names| == |rs|
  {
    if n == 0 then Ok([])
    else
      var data :- AssignAll(names, rs, n - 1);
      var v :- rs[n - 1];
      Ok(Put(data, names[n - 1], v))
  }

  /** The values of the computations that succeed. */
  function OkValues(rs: seq<Result<Json>>): (vs: seq<Option<Json>>)
    ensures |vs| == |rs|
    ensures forall i :: 0 <= i < |rs| ==> (vs[i].Some? <==> rs[i].Ok?)
    ensures forall i :: 0 <= i < |rs| && rs[i].Ok? ==> vs[i] == Some(rs[i].value)
  {
    seq(|rs|, i requires 0 <= i < |rs| => if rs[i].Ok? then Some(rs[i].value) else None)
  }

  /** The loop succeeds iff every computation below `n` does, and then it
      is the plain dict-building loop over their values. */
  lemma {:induction false} AssignAllOk(names: seq<string>, rs: seq<Result<Json>>, n: nat)
    requires n <= |names| == |rs|
    ensures AssignAll(names, rs, n).Ok? <==> forall i :: 0 <= i < n ==> rs[i].Ok?
    ensures AssignAll(names, rs, n).Ok? ==> AssignAll(names, rs, n).value == Assign(names, OkValues(rs), n)
    decreases n
  {
    if n > 0 {
      AssignAllOk(names, rs, n - 1);
    }
  }

  /** Two result lists that succeed at the same places with the same
      values assign alike. */
  lemma {:induction false} AssignAllAlike(names: seq<string>, rs: seq<Result<Json>>, qs: seq<Result<Json>>, n: nat)
    requires n <= |names| == |rs| == |qs|
    requires forall i :: 0 <= i < n ==> (rs[i].Ok? <==> qs[i].Ok?)
    requires forall i :: 0 <= i < n && rs[i].Ok? ==> rs[i].value == qs[i].value
    ensures AssignAll(names, rs, n).Ok? <==> AssignAll(names, qs, n).Ok?
    ensures AssignAll(names, rs, n).Ok? ==> AssignAll(names, rs, n) == AssignAll(names, qs, n)
    decreases n
  {
    if n > 0 {
      AssignAllAlike(names, rs, qs, n - 1);
    }
  }

  lemma AssignAllAt(names: seq<string>, rs: seq<Result<Json>>, i: nat)
    requires i < |names| == |rs| && AssignAll(names, rs, |names|).Ok?
    requires forall a, b :: 0 <= a < b < |names| ==> names[a] != names[b]
    ensures rs[i].Ok? && Lookup(AssignAll(names, rs, |names|).value, names[i]) == Some(rs[i].value)
  {
    AssignAllOk(names, rs, |names|);
    AssignNamed(names, OkValues(rs), i);
  }

  /** The first failing computation is the error the loop raises. */
  lemma {:induction false} AssignAllFirstErr(names: seq<string>, rs: seq<Result<Json>>, n: nat, m: nat)
    requires m < n <= |names| == |rs| && rs[m].Err?
    requires forall i :: 0 <= i < m ==> rs[i].Ok?
    ensures AssignAll(names, rs, n) == Err(rs[m].error)
    decreases n
  {
    if n - 1 == m {
      AssignAllOk(names, rs, m);
    } else {
      AssignAllFirstErr(names, rs, n - 1, m);
    }
  }

  /** A key other than the first reads the same without the first pair. */
  lemma LookupTail(fields: Fields, k: string)
    requires fields != [] && k != fields[0].0
    ensures Lookup(fields, k) == Lookup(fields[1..], k)
  {
    var rest := fields[1..];
    KeysTail(fields);
    if k in Keys(rest) {
      var i := KeyIndex(rest, k);
      var i' := KeyIndex(fields, k);
      assert fields[i + 1] == rest[i];
      assert i' <= i + 1;
      assert i' > 0 && rest[i' - 1] == fields[i'];
      assert i' == i + 1;
    }
  }

  /** Distinct keys: the first key does not come back, and the rest stay
      distinct. */
  lemma DistinctTail(fields: Fields)
    requires fields != [] && DistinctKeys(fields)
    ensures fields[0].0 !in Keys(fields[1..]) && DistinctKeys(fields[1..])
  {
    var rest := fields[1..];
    forall i | 0 <= i < |rest| ensures Keys(rest)[i] != fields[0].0 {
      assert rest[i] == fields[i + 1];
    }
    forall i, j | 0 <= i < j < |rest| ensures rest[i].0 != rest[j].0 {
      assert rest[i] == fields[i + 1] && rest[j] == fields[j + 1];
    }
  }

  /** A key that `other` does not hold reads the same after
      `d.update(other)`. */
  lemma UpdateKeeps(fields: Fields, other: Fields, k: string)
    requires k !in Keys(other)
    ensures Lookup(Update(fields, other), k) == Lookup(fields, k)
  {
    UpdateFacts(fields, other);
  }

  /** With distinct keys in `other`, a key of `other` reads its value in
      `other` after `d.update(other)`. */
  lemma {:induction false} UpdateLookup(fields: Fields, other: Fields, k: string)
    requires DistinctKeys(other) && k in Keys(other)
    ensures Lookup(Update(fields, other), k) == Lookup(other, k)
    decreases |other|
  {
    var p := Put(fields, other[0].0, other[0].1);
    PutFacts(fields, other[0].0, other[0].1);
    var rest := other[1..];
    DistinctTail(other);
    if k == other[0].0 {
      UpdateFacts(p, rest);
      assert KeyIndex(other, k) == 0;
    } else {
      KeysTail(other);
      UpdateLookup(p, rest, k);
      LookupTail(other, k);
    }
  }

  /** The dict a loop builds by `acc.update(adds[i])` for each `i` below
      `n` whose entry is present. */
  function UpdateAll(acc: Fields, adds: seq<Option<Fields>>, n: nat): Fields
    requires n <= |adds|
  {
    if n == 0 then acc
    else
      var data := UpdateAll(acc, adds, n - 1);
      if adds[n - 1].Some? then Update(data, adds[n - 1].value) else data
  }

  /** Some present entry below `n` holds key `k`. */
  predicate Supplied(adds: seq<Option<Fields>>, n: nat, k: string)
    requires n <= |adds|
  {
    exists i :: 0 <= i < n && adds[i].Some? && k in Keys(adds[i].value)
  }

  /** The keys after the loop are those of `acc` and of every present
      entry; distinct keys stay distinct. */
  lemma {:induction false} UpdateAllKeys(acc: Fields, adds: seq<Option<Fields>>, n: nat)
    requires n <= |adds|
    ensures forall k :: k in Keys(UpdateAll(acc, adds, n)) <==> k in Keys(acc) || Supplied(adds, n, k)
    ensures DistinctKeys(acc) ==> DistinctKeys(UpdateAll(acc, adds, n))
    decreases n
  {
    if n > 0 {
      UpdateAllKeys(acc, adds, n - 1);
      UpdateAllStep(acc, adds, n);
      forall k
        ensures Supplied(adds, n, k) <==> Supplied(adds, n - 1, k) || (adds[n - 1].Some? && k in Keys(adds[n - 1].value))
      {
        SuppliedStep(adds, n, k);
      }
    }
  }

  /** The keys after one more turn: those before and those of the turn's
      entry. */
  lemma UpdateAllStep(acc: Fields, adds: seq<Option<Fields>>, n: nat)
    requires 0 < n <= |adds|
    ensures forall k :: k in Keys(UpdateAll(acc, adds, n)) <==>
      k in Keys(UpdateAll(acc, adds, n - 1)) || (adds[n - 1].Some? && k in Keys(adds[n - 1].value))
    ensures DistinctKeys(UpdateAll(acc, adds, n - 1)) ==> DistinctKeys(UpdateAll(acc, adds, n))
  {
    if adds[n - 1].Some? {
      UpdateFacts(UpdateAll(acc, adds, n - 1), adds[n - 1].value);
    }
  }

  lemma SuppliedStep(adds: seq<Option<Fields>>, n: nat, k: string)
    requires 0 < n <= |adds|
    ensures Supplied(adds, n, k) <==> Supplied(adds, n - 1, k) || (adds[n - 1].Some? && k in Keys(adds[n - 1].value))
  {
    if Supplied(adds, n, k) {
      var i :| 0 <= i < n && adds[i].Some? && k in Keys(adds[i].value);
      if i < n - 1 {
        assert Supplied(adds, n - 1, k);
      }
    }
  }

  /** The last entry below `n` that holds `k` decides what `k` reads,
      when that entry's keys are distinct: later updates override
      earlier ones. */
  lemma {:induction false} UpdateAllLast(acc: Fields, adds: seq<Option<Fields>>, n: nat, i: nat, k: string)
    requires i < n <= |adds| && adds[i].Some? && k in Keys(adds[i].value) && DistinctKeys(adds[i].value)
    requires forall j :: i < j < n && adds[j].Some? ==> k !in Keys(adds[j].value)
    ensures Lookup(UpdateAll(acc, adds, n), k) == Lookup(adds[i].value, k)
    decreases n
  {
    if n - 1 == i {
      UpdateAllWrites(acc, adds, n, k);
    } else {
      UpdateAllLast(acc, adds, n - 1, i, k);
      UpdateAllSkips(acc, adds, n, k);
    }
  }

  /** The entry of the last turn decides what its keys read. */
  lemma UpdateAllWrites(acc: Fields, adds: seq<Option<Fields>>, n: nat, k: string)
    requires 0 < n <= |adds| && adds[n - 1].Some? && k in Keys(adds[n - 1].value) && DistinctKeys(adds[n - 1].value)
    ensures Lookup(UpdateAll(acc, adds, n), k) == Lookup(adds[n - 1].value, k)
  {
    UpdateLookup(UpdateAll(acc, adds, n - 1), adds[n - 1].value, k);
  }

  /** A turn whose entry does not hold `k` leaves what `k` reads. */
  lemma UpdateAllSkips(acc: Fields, adds: seq<Option<Fields>>, n: nat, k: string)
    requires 0 < n <= |adds| && (adds[n - 1].Some? ==> k !in Keys(adds[n - 1].value))
    ensures Lookup(UpdateAll(acc, adds, n), k) == Lookup(UpdateAll(acc, adds, n - 1), k)
  {
    if adds[n - 1].Some? {
      UpdateKeeps(UpdateAll(acc, adds, n - 1), adds[n - 1].value, k);
    }
  }

  /** The dict nested loops build: `UpdateAll` over each group in turn,
      starting from `{}`. */
  function UpdateEach(groups: seq<seq<Option<Fields>>>, i: nat): Fields
    requires i <= |groups|
  {
    if i == 0 then [] else UpdateAll(UpdateEach(groups, i - 1), groups[i - 1], |groups[i - 1]|)
  }

  /** One more group: the fold so far, updated with that group. */
  lemma UpdateEachStep(groups: seq<seq<Option<Fields>>>, i: nat, acc: Fields, group: seq<Option<Fields>>)
    requires 0 < i <= |groups| && UpdateEach(groups, i - 1) == acc && groups[i - 1] == group
    ensures UpdateEach(groups, i) == UpdateAll(acc, group, |group|)
  {
  }

  /** A present entry of one of the first `i` groups holds key `k`. */
  predicate SuppliedIn(groups: seq<seq<Option<Fields>>>, i: nat, k: string)
    requires i <= |groups|
  {
    exists j :: 0 <= j < i && Supplied(groups[j], |groups[j]|, k)
  }

  /** The keys after the nested loops are those of every present entry of
      every group, each once. */
  lemma {:induction false} UpdateEachKeys(groups: seq<seq<Option<Fields>>>, i: nat)
    requires i <= |groups|
    ensures DistinctKeys(UpdateEach(groups, i))
    ensures forall k :: k in Keys(UpdateEach(groups, i)) <==> SuppliedIn(groups, i, k)
    decreases i
  {
    if i > 0 {
      UpdateEachKeys(groups, i - 1);
      UpdateAllKeys(UpdateEach(groups, i - 1), groups[i - 1], |groups[i - 1]|);
      forall k | SuppliedIn(groups, i, k)
        ensures SuppliedIn(groups, i - 1, k) || Supplied(groups[i - 1], |groups[i - 1]|, k)
      {
        var j :| 0 <= j < i && Supplied(groups[j], |groups[j]|, k);
        if j < i - 1 {
          assert SuppliedIn(groups, i - 1, k);
        }
      }
    }
  }

  /** The list a loop builds by appending `adds[i]` for each `i` below `n`
      whose entry is present. */
  function Collect(adds: seq<Option<Fields>>, n: nat): seq<Json>
    requires n <= |adds|
  {
    if n == 0 then []
    else Collect(adds, n - 1) + (if adds[n - 1].Some? then [JObj(adds[n - 1].value)] else [])
  }

  // ---------------------------------------------------------------------
  // Loops over results that stop at the first error

  /** The value of each result that is present and succeeded. */
  function Values(rs: seq<Option<Result<Fields>>>): (vs: seq<Option<Fields>>)
    ensures |vs| == |rs|
    ensures forall i :: 0 <= i < |rs| ==>
      vs[i] == if rs[i].Some? && rs[i].value.Ok? then Some(rs[i].value.value) else None
  {
    seq(|rs|, i requires 0 <= i < |rs| => if rs[i].Some? && rs[i].value.Ok? then Some(rs[i].value.value) else None)
  }

  /** A present result that is an error. */
  predicate Failed(r: Option<Result<Fields>>) {
    r.Some? && r.value.Err?
  }

  /** `acc.update(r)` for each present result `r` below `n`, in order; the
      first error is raised and ends the loop. */
  function MergeAll(acc: Fields, rs: seq<Option<Result<Fields>>>, n: nat): Result<Fields>
    requires n <= |rs|
  {
    if n == 0 then Ok(acc)
    else
      var data :- MergeAll(acc, rs, n - 1);
      if rs[n - 1].None? then Ok(data)
      else
        var add :- rs[n - 1].value;
        Ok(Update(data, add))
  }

  /** The list built by appending each present result below `n`; the
      first error is raised and ends the loop. */
  function AppendAll(rs: seq<Option<Result<Fields>>>, n: nat): Result<seq<Json>>
    requires n <= |rs|
  {
    if n == 0 then Ok([])
    else
      var items :- AppendAll(rs, n - 1);
      if rs[n - 1].None? then Ok(items)
      else
        var add :- rs[n - 1].value;
        Ok(items + [JObj(add)])
  }

  /** `MergeAll` over each group in turn, starting from `{}`. */
  function MergeGroups(groups: seq<seq<Option<Result<Fields>>>>, i: nat): Result<Fields>
    requires i <= |groups|
  {
    if i == 0 then Ok([])
    else
      var acc :- MergeGroups(groups, i - 1);
      MergeAll(acc, groups[i - 1], |groups[i - 1]|)
  }

  /** The values of each group. */
  function ValuesEach(groups: seq<seq<Option<Result<Fields>>>>): (r: seq<seq<Option<Fields>>>)
    ensures |r| == |groups| && forall j :: 0 <= j < |groups| ==> r[j] == Values(groups[j])
  {
    seq(|groups|, j requires 0 <= j < |groups| => Values(groups[j]))
  }

  /** Once the merge has failed, it stays failed with the same error. */
  lemma {:induction false} MergeAllFails(acc: Fields, rs: seq<Option<Result<Fields>>>, n: nat, m: nat)
    requires n <= m <= |rs| && MergeAll(acc, rs, n).Err?
    ensures MergeAll(acc, rs, m) == MergeAll(acc, rs, n)
    decreases m
  {
    if m > n {
      MergeAllFails(acc, rs, n, m - 1);
    }
  }

  /** The merge succeeds exactly when no result below `n` failed, and then
      it is the fold of the values. */
  lemma {:induction false} MergeAllOk(acc: Fields, rs: seq<Option<Result<Fields>>>, n: nat)
    requires n <= |rs|
    ensures MergeAll(acc, rs, n).Ok? <==> forall i :: 0 <= i < n ==> !Failed(rs[i])
    ensures MergeAll(acc, rs, n).Ok? ==> MergeAll(acc, rs, n).value == UpdateAll(acc, Values(rs), n)
    decreases n
  {
    if n > 0 {
      MergeAllOk(acc, rs, n - 1);
    }
  }

  lemma {:induction false} AppendAllFails(rs: seq<Option<Result<Fields>>>, n: nat, m: nat)
    requires n <= m <= |rs| && AppendAll(rs, n).Err?
    ensures AppendAll(rs, m) == AppendAll(rs, n)
    decreases m
  {
    if m > n {
      AppendAllFails(rs, n, m - 1);
    }
  }

  /** Appending succeeds exactly when no result below `n` failed, and then
      it collects the values in order. */
  lemma {:induction false} AppendAllOk(rs: seq<Option<Result<Fields>>>, n: nat)
    requires n <= |rs|
    ensures AppendAll(rs, n).Ok? <==> forall i :: 0 <= i < n ==> !Failed(rs[i])
    ensures AppendAll(rs, n).Ok? ==> AppendAll(rs, n).value == Collect(Values(rs), n)
    decreases n
  {
    if n > 0 {
      AppendAllOk(rs, n - 1);
    }
  }

  lemma {:induction false} MergeGroupsFails(groups: seq<seq<Option<Result<Fields>>>>, n: nat, m: nat)
    requires n <= m <= |groups| && MergeGroups(groups, n).Err?
    ensures MergeGroups(groups, m) == MergeGroups(groups, n)
    decreases m
  {
    if m > n {
      MergeGroupsFails(groups, n, m - 1);
    }
  }

  /** A successful pass over the groups is the nested fold of their
      values. */
  lemma {:induction false} MergeGroupsOk(groups: seq<seq<Option<Result<Fields>>>>, i: nat)
    requires i <= |groups|
    ensures MergeGroups(groups, i).Ok? ==> MergeGroups(groups, i).value == UpdateEach(ValuesEach(groups), i)
    decreases i
  {
    if i > 0 {
      MergeGroupsOk(groups, i - 1);
      var acc := MergeGroups(groups, i - 1);
      if acc.Ok? {
        MergeAllOk(acc.value, groups[i - 1], |groups[i - 1]|);
        UpdateEachStep(ValuesEach(groups), i, acc.value, Values(groups[i - 1]));
      }
    }
  }

  /** When every entry below `n` is present, `Collect` holds one dict per
      entry, in order. */
  lemma {:induction false} CollectAll(vs: seq<Option<Fields>>, n: nat)
    requires n <= |vs| && forall i :: 0 <= i < n ==> vs[i].Some?
    ensures |Collect(vs, n)| == n && forall i :: 0 <= i < n ==> Collect(vs, n)[i] == JObj(vs[i].value)
    decreases n
  {
    if n > 0 {
      CollectAll(vs, n - 1);
    }
  }

  // ---------------------------------------------------------------------
  // Python operators on values

  /** Python's `k in container` for a string `k`: key membership for a dict,
      element membership for a list, substring for a str; anything else
      raises `TypeError`. */
  function Contains(container: Json, k: string): (r: Result<bool>)
  {
    match container
    case JObj(fields) => Ok(k in Keys(fields))
    case JList(items) => Ok(exists i :: 0 <= i < |items| && IsStr(items[i], k))
    case JStr(s, _) => Ok(Text.Occurs(k, s))
    case _ => Err(TypeError)
  }

  /** Python's `container[k]` for a string `k`. */
  function GetItem(container: Json, k: string): (r: Result<Json>)
    ensures r.Ok? <==> container.JObj? && k in Keys(container.fields)
    ensures r.Ok? ==> Lookup(container.fields, k) == Some(r.value)
  {
    match container
    case JObj(fields) =>
      if k in Keys(fields) then Ok(fields[KeyIndex(fields, k)].1) else Err(KeyError(k))
    case _ => Err(TypeError)
  }

  /** Whether `k in container` holds, reading an error as false. */
  predicate Has(container: Json, k: string) {
    Contains(container, k) == Ok(true)
  }
}
