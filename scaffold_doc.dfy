/** The `to_doc` filter of the scaffold_rm_facts role: a module model,
    made plain Python, with every dict reordered so that the priority
    keys it holds come first, in priority order, and all other keys
    follow in sorted order; lists are reordered element by element. The
    YAML dump of the result is not part of this model. */
module ScaffoldDoc {
  import opened Wrappers
  import opened JsonValue
  import Text
  import PyangCommon
  import PlainPython

  /** The `priority_keys` list of `to_doc`. */
  const PriorityKeys: seq<string> :=
    ["module", "short_description", "description", "type", "required", "elements", "choices", "suboptions"]

  /** The key order of the `OrderedDict` `order_dict` builds: the priority
      keys present in `f`, then the other keys of `f` sorted. */
  function OrderedKeys(f: Fields, prio: seq<string>): (r: seq<string>)
    ensures forall i :: 0 <= i < |r| ==> r[i] in Keys(f)
  {
    KeyOrderIn(prio, Keys(f));
    KeyOrder(prio, Keys(f))
  }

  /** The priority keys among `ks`, then the others sorted. */
  function KeyOrder(prio: seq<string>, ks: seq<string>): seq<string> {
    PyangCommon.Present(prio, ks) + PyangCommon.Unlisted(Text.Sort(ks), prio)
  }

  /** Every key `KeyOrder` lists comes from `ks`. */
  lemma KeyOrderIn(prio: seq<string>, ks: seq<string>)
    ensures forall k :: k in KeyOrder(prio, ks) ==> k in ks
  {
    PyangCommon.PresentFacts(prio, ks);
    PyangCommon.UnlistedFacts(Text.Sort(ks), prio);
    SortMembers(ks);
  }

  /** For keys without duplicates, `KeyOrder` lists each of them once. */
  lemma KeyOrderFacts(prio: seq<string>, ks: seq<string>)
    requires forall i, j :: 0 <= i < j < |ks| ==> ks[i] != ks[j]
    ensures forall k :: k in KeyOrder(prio, ks) <==> k in ks
    ensures forall i, j :: 0 <= i < j < |KeyOrder(prio, ks)| ==> KeyOrder(prio, ks)[i] != KeyOrder(prio, ks)[j]
  {
    var order := KeyOrder(prio, ks);
    var sorted := Text.Sort(ks);
    var p := PyangCommon.Present(prio, ks);
    var u := PyangCommon.Unlisted(sorted, prio);
    PyangCommon.PresentFacts(prio, ks);
    PyangCommon.UnlistedFacts(sorted, prio);
    SortMembers(ks);
    DistinctSorted(ks);
    PyangCommon.UnlistedDistinct(sorted, prio);
    forall k | k in ks ensures k in order {
      if k !in prio {
        assert k in u;
      }
    }
    forall i, j | 0 <= i < j < |order| ensures order[i] != order[j] {
      if j < |p| {
      } else if i >= |p| {
        assert order[i] == u[i - |p|] && order[j] == u[j - |p|];
      } else {
        assert order[i] in p && order[j] in u;
      }
    }
  }

  /** Sorting keeps the members. */
  lemma SortMembers(ks: seq<string>)
    ensures forall k :: k in Text.Sort(ks) <==> k in ks
  {
    var s := Text.Sort(ks);
    forall k ensures k in s <==> k in ks {
      assert k in s <==> k in multiset(s);
      assert k in ks <==> k in multiset(ks);
    }
  }

  /** `order_dict(obj, priority_keys)`. */
  function OrderDoc(j: Json, prio: seq<string>): Json
    decreases j, 2
  {
    match j
    case JObj(f) => JObj(OrderedFields(f, prio))
    case JList(items) => JList(seq(|items|, i requires 0 <= i < |items| => OrderDoc(items[i], prio)))
    case _ => j
  }

  /** The reordered dict: each key in its new place with its value
      reordered in turn. */
  function OrderedFields(f: Fields, prio: seq<string>): Fields
    decreases JObj(f), 1
  {
    var ks := OrderedKeys(f, prio);
    seq(|ks|, i requires 0 <= i < |ks| => (ks[i], OrderDoc(f[KeyIndex(f, ks[i])].1, prio)))
  }

  /** `to_doc(value)` up to the YAML dump. */
  function ToDoc(value: Json): Json {
    OrderDoc(PlainPython.ToPlain(value), PriorityKeys)
  }

  /** Where `k` first occurs in `s`. */
  function Rank(s: seq<string>, k: string): nat
    requires k in s
  {
    var init := s[..|s| - 1];
    if k in init then Rank(init, k) else |s| - 1
  }

  // ---------------------------------------------------------------------
  // What order_dict promises

  /** The reordered dict holds exactly the keys of the original, each
      once, each with its own value reordered. */
  lemma OrderedFieldsKeys(f: Fields, prio: seq<string>)
    requires DistinctKeys(f)
    ensures Keys(OrderedFields(f, prio)) == OrderedKeys(f, prio)
    ensures forall k :: k in Keys(OrderedFields(f, prio)) <==> k in Keys(f)
    ensures DistinctKeys(OrderedFields(f, prio))
    ensures forall k :: k in Keys(f) ==> Lookup(OrderedFields(f, prio), k) == Some(OrderDoc(ValueAt(f, k), prio))
  {
    var g := OrderedFields(f, prio);
    var ks := OrderedKeys(f, prio);
    assert Keys(g) == ks;
    KeyOrderFacts(prio, Keys(f));
    forall k | k in Keys(f) ensures Lookup(g, k) == Some(OrderDoc(ValueAt(f, k), prio)) {
      var i := KeyIndex(g, k);
      assert g[i] == (ks[i], OrderDoc(f[KeyIndex(f, ks[i])].1, prio));
    }
  }

  /** The priority keys the dict holds come first, in priority order;
      every key after them is not a priority key. */
  lemma PriorityFirst(f: Fields, prio: seq<string>)
    ensures var ks := OrderedKeys(f, prio); var p := PyangCommon.Present(prio, Keys(f));
      && ks[..|p|] == p
      && (forall i :: 0 <= i < |p| ==> p[i] in prio && p[i] in Keys(f))
      && (forall i, j :: 0 <= i < j < |p| ==> Rank(prio, p[i]) < Rank(prio, p[j]))
      && (forall i :: |p| <= i < |ks| ==> ks[i] !in prio)
  {
    var ks := OrderedKeys(f, prio);
    var p := PyangCommon.Present(prio, Keys(f));
    PyangCommon.PresentFacts(prio, Keys(f));
    PyangCommon.UnlistedFacts(Text.Sort(Keys(f)), prio);
    forall i, j | 0 <= i < j < |p| ensures Rank(prio, p[i]) < Rank(prio, p[j]) {
      PresentRanked(prio, Keys(f), i, j);
    }
    assert ks[..|p|] == p;
    forall i | |p| <= i < |ks| ensures ks[i] !in prio {
      assert ks[i] == PyangCommon.Unlisted(Text.Sort(Keys(f)), prio)[i - |p|];
    }
  }

  /** The keys that follow the priority keys are in sorted order. */
  lemma OthersSorted(f: Fields, prio: seq<string>)
    ensures var ks := OrderedKeys(f, prio); var p := PyangCommon.Present(prio, Keys(f));
      Text.Sorted(ks[|p|..])
  {
    var ks := OrderedKeys(f, prio);
    var p := PyangCommon.Present(prio, Keys(f));
    UnlistedSorted(Text.Sort(Keys(f)), prio);
    assert ks[|p|..] == PyangCommon.Unlisted(Text.Sort(Keys(f)), prio);
  }

  /** The first occurrences in `prio` of the listed keys increase along
      `Present`. */
  lemma {:induction false} PresentRanked(prio: seq<string>, present: seq<string>, i: nat, j: nat)
    requires i < j < |PyangCommon.Present(prio, present)|
    ensures var p := PyangCommon.Present(prio, present);
      p[i] in prio && p[j] in prio && Rank(prio, p[i]) < Rank(prio, p[j])
    decreases |prio|
  {
    var init := prio[..|prio| - 1];
    var last := prio[|prio| - 1];
    var p0 := PyangCommon.Present(init, present);
    var p := PyangCommon.Present(prio, present);
    assert p == p0 + (if last in present && last !in init then [last] else []);
    PyangCommon.PresentFacts(init, present);
    assert p[i] == p0[i] && p0[i] in init;
    RankBelow(init, p0[i]);
    assert prio[Rank(init, p0[i])] == p0[i];
    if j < |p0| {
      PresentRanked(init, present, i, j);
      assert p[j] == p0[j] && p0[j] in init;
      RankBelow(init, p0[j]);
      assert prio[Rank(init, p0[j])] == p0[j];
    } else {
      assert p[j] == last && last !in init;
    }
  }

  lemma RankBelow(s: seq<string>, k: string)
    requires k in s
    ensures Rank(s, k) < |s| && s[Rank(s, k)] == k
    decreases |s|
  {
    var init := s[..|s| - 1];
    if k in init {
      RankBelow(init, k);
    }
  }

  /** Dropping keys from a sorted list keeps it sorted. */
  lemma {:induction false} UnlistedSorted(ks: seq<string>, prio: seq<string>)
    requires Text.Sorted(ks)
    ensures Text.Sorted(PyangCommon.Unlisted(ks, prio))
    decreases |ks|
  {
    if ks != [] {
      var init := ks[..|ks| - 1];
      var last := ks[|ks| - 1];
      UnlistedSorted(init, prio);
      PyangCommon.UnlistedFacts(init, prio);
      var u0 := PyangCommon.Unlisted(init, prio);
      var u := PyangCommon.Unlisted(ks, prio);
      forall i, j | 0 <= i < j < |u| ensures Text.StrLe(u[i], u[j]) {
        if j == |u0| {
          assert u[i] in init;
          var a :| 0 <= a < |init| && init[a] == u[i];
          assert u[j] == last && ks[a] == u[i];
        } else {
          assert u[i] == u0[i] && u[j] == u0[j];
        }
      }
    }
  }

  /** Keys without duplicates stay without duplicates once sorted. */
  lemma DistinctSorted(ks: seq<string>)
    requires forall i, j :: 0 <= i < j < |ks| ==> ks[i] != ks[j]
    ensures forall i, j :: 0 <= i < j < |Text.Sort(ks)| ==> Text.Sort(ks)[i] != Text.Sort(ks)[j]
  {
    var s := Text.Sort(ks);
    forall i, j | 0 <= i < j < |s| ensures s[i] != s[j] {
      if s[i] == s[j] {
        DistinctCount(ks, s[i]);
        TwiceCounted(s, i, j);
        assert false;
      }
    }
  }

  /** An element at two places is counted twice. */
  lemma TwiceCounted(s: seq<string>, i: nat, j: nat)
    requires i < j < |s| && s[i] == s[j]
    ensures multiset(s)[s[i]] >= 2
  {
    assert s == s[..j] + s[j..];
    assert s[i] in s[..j] && s[j] in s[j..];
    assert multiset(s) == multiset(s[..j]) + multiset(s[j..]);
  }

  /** In a list without duplicates an element occurs at most once. */
  lemma {:induction false} DistinctCount(ks: seq<string>, k: string)
    requires forall i, j :: 0 <= i < j < |ks| ==> ks[i] != ks[j]
    ensures multiset(ks)[k] == if k in ks then 1 else 0
    decreases |ks|
  {
    if ks != [] {
      DistinctCount(ks[1..], k);
      assert ks == [ks[0]] + ks[1..];
    }
  }

  /** `Present` only asks which keys occur. */
  lemma {:induction false} PresentSameMembers(prio: seq<string>, a: seq<string>, b: seq<string>)
    requires forall k :: k in a <==> k in b
    ensures PyangCommon.Present(prio, a) == PyangCommon.Present(prio, b)
    decreases |prio|
  {
    if prio != [] {
      PresentSameMembers(prio[..|prio| - 1], a, b);
    }
  }

  /** Reordering a reordered dict finds its keys already in place. */
  lemma OrderedKeysStable(f: Fields, prio: seq<string>)
    requires DistinctKeys(f)
    ensures OrderedKeys(OrderedFields(f, prio), prio) == OrderedKeys(f, prio)
  {
    var g := OrderedFields(f, prio);
    OrderedFieldsKeys(f, prio);
    PresentSameMembers(prio, Keys(g), Keys(f));
    forall k ensures multiset(Keys(g))[k] == multiset(Keys(f))[k] {
      DistinctCount(Keys(g), k);
      DistinctCount(Keys(f), k);
    }
    assert multiset(Keys(g)) == multiset(Keys(f));
    Text.SortedUnique(Text.Sort(Keys(g)), Text.Sort(Keys(f)));
  }

  /** A dict whose values are each stable under reordering is stable
      itself. */
  lemma OrderedFieldsStable(f: Fields, prio: seq<string>)
    requires DistinctKeys(f)
    requires forall i :: 0 <= i < |f| ==> OrderDoc(OrderDoc(f[i].1, prio), prio) == OrderDoc(f[i].1, prio)
    ensures OrderedFields(OrderedFields(f, prio), prio) == OrderedFields(f, prio)
  {
    var g := OrderedFields(f, prio);
    var ks := OrderedKeys(f, prio);
    OrderedKeysStable(f, prio);
    OrderedFieldsKeys(f, prio);
    forall i | 0 <= i < |ks| ensures OrderedFields(g, prio)[i] == g[i] {
      assert KeyIndex(g, ks[i]) == i;
    }
  }

  /** `order_dict` is idempotent on dicts without duplicate keys. */
  lemma {:induction false} OrderDocIdempotent(j: Json, prio: seq<string>)
    requires WellFormed(j)
    ensures OrderDoc(OrderDoc(j, prio), prio) == OrderDoc(j, prio)
    decreases j
  {
    match j
    case JObj(f) =>
      forall i | 0 <= i < |f| ensures OrderDoc(OrderDoc(f[i].1, prio), prio) == OrderDoc(f[i].1, prio) {
        OrderDocIdempotent(f[i].1, prio);
      }
      OrderedFieldsStable(f, prio);
    case JList(items) =>
      forall i | 0 <= i < |items| ensures OrderDoc(OrderDoc(items[i], prio), prio) == OrderDoc(items[i], prio) {
        OrderDocIdempotent(items[i], prio);
      }
      assert OrderDoc(OrderDoc(j, prio), prio).items == OrderDoc(j, prio).items;
    case _ =>
  }

  /** The filter's ordering is already in place in its own output. */
  lemma ToDocOrdered(value: Json)
    requires WellFormed(value)
    ensures OrderDoc(ToDoc(value), PriorityKeys) == ToDoc(value)
  {
    PlainPython.ToPlainWellFormed(value);
    OrderDocIdempotent(PlainPython.ToPlain(value), PriorityKeys);
  }
}
