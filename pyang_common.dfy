/** The two helpers `ansible_old.py` and `ansible_next.py` both define, in
    the same words: `order_dict`, which puts the keys of a generated dict
    in a preferred order, and `preprocess_string`, which flattens a
    description onto one line. */
module PyangCommon {
  import opened Wrappers
  import opened JsonValue
  import Text

  // ---------------------------------------------------------------------
  // order_dict

  /** A value as it leaves `order_dict`: dicts reordered, anything else
      (lists included) untouched. */
  function OrderValue(v: Json, ordered: seq<string>): Json
    decreases v, 4
  {
    if v.JObj? then JObj(OrderFields(v.fields, ordered)) else v
  }

  /** What `order_dict(d, ordered)` returns. */
  function OrderFields(d: Fields, ordered: seq<string>): Fields
    decreases JObj(d), 3
  {
    OthersPass(d, ordered, ListedPass(d, ordered, |ordered|), |d|)
  }

  /** The new dict after the first loop has visited `ordered[..n]`. */
  function ListedPass(d: Fields, ordered: seq<string>, n: nat): Fields
    requires n <= |ordered|
    decreases JObj(d), 2, n
  {
    if n == 0 then []
    else
      var acc := ListedPass(d, ordered, n - 1);
      var key := ordered[n - 1];
      if key in Keys(d) then Put(acc, key, OrderValue(d[KeyIndex(d, key)].1, ordered)) else acc
  }

  /** The new dict after the second loop has visited the first `m` keys of
      `d`, starting from `acc`. */
  function OthersPass(d: Fields, ordered: seq<string>, acc: Fields, m: nat): Fields
    requires m <= |d|
    decreases JObj(d), 2, m
  {
    if m == 0 then acc
    else
      var prev := OthersPass(d, ordered, acc, m - 1);
      var key := d[m - 1].0;
      if key !in ordered then Put(prev, key, OrderValue(d[KeyIndex(d, key)].1, ordered)) else prev
  }

  /** `order_dict(d, ordered_keys)`: the listed keys `d` holds, in list
      order, then the others in their original order, with every dict
      value ordered the same way. */
  method OrderDict(d: Fields, ordered: seq<string>) returns (r: Fields)
    ensures r == OrderFields(d, ordered)
    decreases JObj(d)
  {
    r := [];
    for n := 0 to |ordered|
      invariant r == ListedPass(d, ordered, n)
    {
      var key := ordered[n];
      if key in Keys(d) {
        var value := Ordered(d, key, ordered);
        r := Put(r, key, value);
      }
    }
    ghost var listed := r;
    for m := 0 to |d|
      invariant r == OthersPass(d, ordered, listed, m)
    {
      var key := d[m].0;
      if key !in ordered {
        var value := Ordered(d, key, ordered);
        r := Put(r, key, value);
      }
    }
  }

  /** One loop turn's `value = d[key]`, reordered when it is a dict. */
  method Ordered(d: Fields, key: string, ordered: seq<string>) returns (value: Json)
    requires key in Keys(d)
    ensures value == OrderValue(ValueAt(d, key), ordered)
    decreases JObj(d), 0
  {
    value := d[KeyIndex(d, key)].1;
    if value.JObj? {
      var sub := OrderDict(value.fields, ordered);
      value := JObj(sub);
    }
  }

  /** The listed keys `present` holds, each once, in list order: an
      independent statement of the first loop's key order. */
  function Present(ordered: seq<string>, present: seq<string>): (r: seq<string>)
  {
    if ordered == [] then []
    else
      var key := ordered[|ordered| - 1];
      var init := ordered[..|ordered| - 1];
      Present(init, present) + (if key in present && key !in init then [key] else [])
  }

  /** The keys of `ks` missing from `ordered`, in their original order. */
  function Unlisted(ks: seq<string>, ordered: seq<string>): (r: seq<string>)
  {
    if ks == [] then []
    else Unlisted(ks[..|ks| - 1], ordered) + (if ks[|ks| - 1] !in ordered then [ks[|ks| - 1]] else [])
  }

  lemma {:induction false} PresentFacts(ordered: seq<string>, present: seq<string>)
    ensures forall k :: k in Present(ordered, present) <==> k in ordered && k in present
    ensures forall i, j :: 0 <= i < j < |Present(ordered, present)| ==>
      Present(ordered, present)[i] != Present(ordered, present)[j]
    decreases |ordered|
  {
    if ordered != [] {
      PresentFacts(ordered[..|ordered| - 1], present);
      assert ordered == ordered[..|ordered| - 1] + [ordered[|ordered| - 1]];
    }
  }

  lemma {:induction false} UnlistedFacts(ks: seq<string>, ordered: seq<string>)
    ensures forall k :: k in Unlisted(ks, ordered) <==> k in ks && k !in ordered
    decreases |ks|
  {
    if ks != [] {
      UnlistedFacts(ks[..|ks| - 1], ordered);
      assert ks == ks[..|ks| - 1] + [ks[|ks| - 1]];
    }
  }

  /** The first loop leaves the present listed keys, in list order. */
  lemma {:induction false} ListedPassKeys(d: Fields, ordered: seq<string>, n: nat)
    requires n <= |ordered|
    ensures Keys(ListedPass(d, ordered, n)) == Present(ordered[..n], Keys(d))
    decreases n
  {
    if n > 0 {
      ListedPassKeys(d, ordered, n - 1);
      var acc := ListedPass(d, ordered, n - 1);
      var key := ordered[n - 1];
      assert ordered[..n][..n - 1] == ordered[..n - 1];
      PresentFacts(ordered[..n - 1], Keys(d));
      if key in Keys(d) {
        PutFacts(acc, key, OrderValue(ValueAt(d, key), ordered));
      }
    }
  }

  /** Every key the first loop writes comes from `d`, with its value
      ordered. */
  lemma {:induction false} ListedPassValues(d: Fields, ordered: seq<string>, n: nat)
    requires n <= |ordered|
    ensures forall k :: k in Keys(ListedPass(d, ordered, n)) ==>
      k in Keys(d) && Lookup(ListedPass(d, ordered, n), k) == Some(OrderValue(ValueAt(d, k), ordered))
    decreases n
  {
    if n > 0 {
      ListedPassValues(d, ordered, n - 1);
      var acc := ListedPass(d, ordered, n - 1);
      var key := ordered[n - 1];
      if key in Keys(d) {
        var v := OrderValue(ValueAt(d, key), ordered);
        assert ListedPass(d, ordered, n) == Put(acc, key, v);
        PutFacts(acc, key, v);
        forall k | k in Keys(Put(acc, key, v))
          ensures k in Keys(d) && Lookup(Put(acc, key, v), k) == Some(OrderValue(ValueAt(d, k), ordered))
        {
          if k != key {
            assert k in Keys(acc);
          }
        }
      } else {
        assert ListedPass(d, ordered, n) == acc;
      }
    }
  }

  /** The second loop appends the unlisted keys of `d`, in order. */
  lemma {:induction false} OthersPassKeys(d: Fields, ordered: seq<string>, acc: Fields, m: nat)
    requires m <= |d|
    requires DistinctKeys(d)
    requires forall k :: k in Keys(acc) ==> k in ordered
    ensures Keys(OthersPass(d, ordered, acc, m)) == Keys(acc) + Unlisted(Keys(d)[..m], ordered)
    decreases m
  {
    if m > 0 {
      OthersPassKeys(d, ordered, acc, m - 1);
      OthersPassStepKeys(d, ordered, acc, m);
      UnlistedPrefix(d, ordered, m);
      var key := d[m - 1].0;
      var prev := Unlisted(Keys(d)[..m - 1], ordered);
      if key !in ordered {
        UnlistedNew(d, ordered, m);
        assert key !in Keys(acc) + prev;
      }
      AppendAssoc(Keys(acc), prev, if key !in ordered then [key] else []);
    }
  }

  /** Concatenation is associative. */
  lemma AppendAssoc<T>(a: seq<T>, b: seq<T>, c: seq<T>)
    ensures (a + b) + c == a + (b + c)
  {
  }

  /** The unlisted keys among the first `m` keys of `d`. */
  lemma UnlistedPrefix(d: Fields, ordered: seq<string>, m: nat)
    requires 0 < m <= |d|
    ensures Unlisted(Keys(d)[..m], ordered)
      == Unlisted(Keys(d)[..m - 1], ordered) + (if d[m - 1].0 !in ordered then [d[m - 1].0] else [])
  {
    assert Keys(d)[..m][..m - 1] == Keys(d)[..m - 1];
  }

  /** With distinct keys, `d`'s key at `m - 1` is not among the unlisted
      keys before it. */
  lemma UnlistedNew(d: Fields, ordered: seq<string>, m: nat)
    requires 0 < m <= |d| && DistinctKeys(d)
    ensures d[m - 1].0 !in Unlisted(Keys(d)[..m - 1], ordered)
  {
    var seen := Keys(d)[..m - 1];
    UnlistedFacts(seen, ordered);
    forall i | 0 <= i < |seen| ensures seen[i] != d[m - 1].0 {
      assert d[i].0 != d[m - 1].0;
    }
  }

  /** One turn of the second loop adds its key when the key is unlisted
      and new. */
  lemma OthersPassStepKeys(d: Fields, ordered: seq<string>, acc: Fields, m: nat)
    requires 0 < m <= |d|
    ensures var prev := Keys(OthersPass(d, ordered, acc, m - 1));
      var key := d[m - 1].0;
      Keys(OthersPass(d, ordered, acc, m))
        == if key !in ordered && key !in prev then prev + [key] else prev
  {
    var key := d[m - 1].0;
    if key !in ordered {
      PutFacts(OthersPass(d, ordered, acc, m - 1), key, OrderValue(ValueAt(d, key), ordered));
    }
  }

  /** The second loop writes the unlisted keys with their values ordered. */
  lemma {:induction false} OthersPassValues(d: Fields, ordered: seq<string>, acc: Fields, m: nat)
    requires m <= |d|
    ensures forall k :: k !in Keys(acc) && k in Keys(OthersPass(d, ordered, acc, m)) ==>
      k in Keys(d) && Lookup(OthersPass(d, ordered, acc, m), k) == Some(OrderValue(ValueAt(d, k), ordered))
    decreases m
  {
    if m > 0 {
      OthersPassValues(d, ordered, acc, m - 1);
      var prev := OthersPass(d, ordered, acc, m - 1);
      var key := d[m - 1].0;
      if key !in ordered {
        assert key in Keys(d);
        var v := OrderValue(ValueAt(d, key), ordered);
        var next := Put(prev, key, v);
        assert OthersPass(d, ordered, acc, m) == next;
        PutFacts(prev, key, v);
        forall k | k !in Keys(acc) && k in Keys(next)
          ensures k in Keys(d) && Lookup(next, k) == Some(OrderValue(ValueAt(d, k), ordered))
        {
          if k != key {
            assert k in Keys(prev);
          }
        }
      } else {
        assert OthersPass(d, ordered, acc, m) == prev;
      }
    }
  }

  /** The second loop leaves alone the listed keys the first one wrote. */
  lemma {:induction false} OthersPassKeepsListed(d: Fields, ordered: seq<string>, acc: Fields, m: nat, k: string)
    requires m <= |d| && k in ordered
    ensures Lookup(OthersPass(d, ordered, acc, m), k) == Lookup(acc, k)
    decreases m
  {
    if m > 0 {
      OthersPassKeepsListed(d, ordered, acc, m - 1, k);
      var prev := OthersPass(d, ordered, acc, m - 1);
      var key := d[m - 1].0;
      if key !in ordered {
        var v := OrderValue(ValueAt(d, key), ordered);
        assert OthersPass(d, ordered, acc, m) == Put(prev, key, v);
        PutFacts(prev, key, v);
      } else {
        assert OthersPass(d, ordered, acc, m) == prev;
      }
    }
  }

  /** `order_dict` returns exactly the input's keys: the listed ones first,
      in list order, then the others in their original order; each key
      keeps its value, ordered recursively when it is a dict. */
  lemma OrderDictKeys(d: Fields, ordered: seq<string>)
    requires DistinctKeys(d)
    ensures Keys(OrderFields(d, ordered)) == Present(ordered, Keys(d)) + Unlisted(Keys(d), ordered)
    ensures forall k :: k in Keys(OrderFields(d, ordered)) <==> k in Keys(d)
    ensures forall k :: k in Keys(d) ==>
      Lookup(OrderFields(d, ordered), k) == Some(OrderValue(ValueAt(d, k), ordered))
  {
    var listed := ListedPass(d, ordered, |ordered|);
    ListedPassKeys(d, ordered, |ordered|);
    ListedPassValues(d, ordered, |ordered|);
    assert ordered[..|ordered|] == ordered;
    PresentFacts(ordered, Keys(d));
    OthersPassKeys(d, ordered, listed, |d|);
    OthersPassValues(d, ordered, listed, |d|);
    forall k | k in Keys(listed) && k in ordered {
      OthersPassKeepsListed(d, ordered, listed, |d|, k);
    }
    assert Keys(d)[..|d|] == Keys(d);
    UnlistedFacts(Keys(d), ordered);
  }

  /** A dict with distinct keys keeps them distinct under `order_dict`. */
  lemma OrderDictDistinct(d: Fields, ordered: seq<string>)
    requires DistinctKeys(d)
    ensures DistinctKeys(OrderFields(d, ordered))
  {
    OrderDictKeys(d, ordered);
    PresentFacts(ordered, Keys(d));
    UnlistedDistinct(Keys(d), ordered);
    var ks := Keys(OrderFields(d, ordered));
    var p := Present(ordered, Keys(d));
    var u := Unlisted(Keys(d), ordered);
    UnlistedFacts(Keys(d), ordered);
    forall i, j | 0 <= i < j < |ks| ensures ks[i] != ks[j] {
      if j < |p| {
      } else if i >= |p| {
        assert ks[i] == u[i - |p|] && ks[j] == u[j - |p|];
      } else {
        assert ks[i] in p && ks[j] in u;
      }
    }
  }

  lemma {:induction false} UnlistedDistinct(ks: seq<string>, ordered: seq<string>)
    requires forall i, j :: 0 <= i < j < |ks| ==> ks[i] != ks[j]
    ensures forall i, j :: 0 <= i < j < |Unlisted(ks, ordered)| ==>
      Unlisted(ks, ordered)[i] != Unlisted(ks, ordered)[j]
    decreases |ks|
  {
    if ks != [] {
      var init := ks[..|ks| - 1];
      UnlistedDistinct(init, ordered);
      UnlistedFacts(init, ordered);
      assert ks[|ks| - 1] !in init;
    }
  }

  // ---------------------------------------------------------------------
  // preprocess_string

  /** `preprocess_string(s)`: every whitespace run becomes one space, then
      every `:` becomes `;`. */
  function PreprocessString(s: string): string {
    Text.ReplaceChar(Text.CollapseWhitespace(s), ':', ';')
  }

  /** The preprocessed text has no `:`, no whitespace but single spaces,
      and the same visible characters as the input with `:` read as `;`. */
  lemma PreprocessStringFacts(s: string)
    ensures var r := PreprocessString(s);
      && ':' !in r
      && (forall i :: 0 <= i < |r| && Text.IsSpace(r[i]) ==> r[i] == ' ')
      && (forall i :: 0 <= i < |r| - 1 && r[i] == ' ' ==> r[i + 1] != ' ')
      && Text.RemoveSpaces(r) == Text.ReplaceChar(Text.RemoveSpaces(s), ':', ';')
  {
    var c := Text.CollapseWhitespace(s);
    Text.CollapseWhitespaceFacts(s);
    var r := Text.ReplaceChar(c, ':', ';');
    assert forall i :: 0 <= i < |r| ==> r[i] != ':';
    RemoveSpacesReplace(c);
  }

  /** A whitespace run between two visible characters becomes one space
      between the two preprocessed sides. */
  lemma PreprocessAround(a: string, w: string, b: string)
    requires a == [] || !Text.IsSpace(a[|a| - 1])
    requires w != [] && forall j :: 0 <= j < |w| ==> Text.IsSpace(w[j])
    requires b == [] || !Text.IsSpace(b[0])
    ensures PreprocessString(a + w + b) == PreprocessString(a) + " " + PreprocessString(b)
  {
    Text.DropSpacesAll(w);
    Text.CollapseAround(a, w, b);
    var ca := Text.CollapseWhitespace(a);
    var cb := Text.CollapseWhitespace(b);
    Text.ReplaceCharAppend(ca + " ", cb, ':', ';');
    Text.ReplaceCharAppend(ca, " ", ':', ';');
    assert Text.ReplaceChar(" ", ':', ';') == " ";
  }

  /** Replacing `:` by `;` commutes with dropping whitespace. */
  lemma {:induction false} RemoveSpacesReplace(s: string)
    ensures Text.RemoveSpaces(Text.ReplaceChar(s, ':', ';'))
      == Text.ReplaceChar(Text.RemoveSpaces(s), ':', ';')
    decreases |s|
  {
    if s != [] {
      RemoveSpacesReplace(s[1..]);
      var r := Text.ReplaceChar(s, ':', ';');
      assert r[1..] == Text.ReplaceChar(s[1..], ':', ';');
      var head := if Text.IsSpace(s[0]) then [] else [s[0]];
      assert Text.ReplaceChar(head + Text.RemoveSpaces(s[1..]), ':', ';')
        == Text.ReplaceChar(head, ':', ';') + Text.ReplaceChar(Text.RemoveSpaces(s[1..]), ':', ';');
    }
  }
}
