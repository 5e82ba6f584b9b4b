/** String helpers shared by the converters: Python's `str.split` /
    `str.join`, the whitespace-collapsing `preprocess_string`, `int()` on a
    decimal literal and `sorted()` over strings. */
module Text {
  import opened Wrappers

  // ---------------------------------------------------------------------
  // Occurrences

  /** `pat` occurs in `s` starting at index `i`. */
  predicate IsAt(s: string, pat: string, i: int) {
    0 <= i && i + |pat| <= |s| && s[i..i + |pat|] == pat
  }

  /** Python's `pat in s` for two strings. */
  predicate Occurs(pat: string, s: string) {
    exists i :: 0 <= i <= |s| - |pat| && IsAt(s, pat, i)
  }

  /** `s.find(pat)`: the first index where `pat` occurs. */
  function IndexOf(s: string, pat: string): (r: Option<nat>)
    ensures r.Some? ==> IsAt(s, pat, r.value) && forall j :: 0 <= j < r.value ==> !IsAt(s, pat, j)
    ensures r.None? ==> forall j :: !IsAt(s, pat, j)
    decreases |s|
  {
    if |s| < |pat| then
      assert forall j :: !IsAt(s, pat, j);
      None
    else if s[..|pat|] == pat then
      Some(0)
    else
      assert forall j :: 1 <= j ==> (IsAt(s[1..], pat, j - 1) <==> IsAt(s, pat, j)) by {
        forall j | 1 <= j ensures IsAt(s[1..], pat, j - 1) <==> IsAt(s, pat, j) {
          IsAtDropFirst(s, pat, j);
        }
      }
      match IndexOf(s[1..], pat)
      case None => None
      case Some(k) => Some(k + 1)
  }

  /** `s.rfind(pat)`: the last index where `pat` occurs. */
  function LastIndexOf(s: string, pat: string): (r: Option<nat>)
    ensures r.Some? ==> IsAt(s, pat, r.value) && forall j :: r.value < j ==> !IsAt(s, pat, j)
    ensures r.None? ==> forall j :: !IsAt(s, pat, j)
    decreases |s|
  {
    if |s| < |pat| then
      None
    else if s[|s| - |pat|..] == pat then
      Some(|s| - |pat|)
    else
      var r := LastIndexOf(s[..|s| - 1], pat);
      assert forall j :: IsAt(s[..|s| - 1], pat, j) <==> IsAt(s, pat, j) by {
        forall j ensures IsAt(s[..|s| - 1], pat, j) <==> IsAt(s, pat, j) {
          IsAtDropLast(s, pat, j);
        }
      }
      r
  }

  /** Dropping the first character of `s` shifts every later occurrence
      of `pat` by one. */
  lemma IsAtDropFirst(s: string, pat: string, j: int)
    requires s != [] && 1 <= j
    ensures IsAt(s[1..], pat, j - 1) <==> IsAt(s, pat, j)
  {
    if j + |pat| <= |s| {
      assert s[1..][j - 1..j - 1 + |pat|] == s[j..j + |pat|];
    }
  }

  /** Unless `s` ends with `pat`, dropping its last character keeps every
      occurrence of `pat`. */
  lemma IsAtDropLast(s: string, pat: string, j: int)
    requires |pat| <= |s| && s[|s| - |pat|..] != pat
    ensures IsAt(s[..|s| - 1], pat, j) <==> IsAt(s, pat, j)
  {
    if 0 <= j && j + |pat| <= |s| {
      if j + |pat| < |s| {
        assert s[..|s| - 1][j..j + |pat|] == s[j..j + |pat|];
      } else {
        assert s[j..j + |pat|] == s[|s| - |pat|..];
      }
    }
  }

  // ---------------------------------------------------------------------
  // str.split / str.join

  predicate StartsWith(s: string, pat: string) {
    |pat| <= |s| && s[..|pat|] == pat
  }

  /** Python's `s.split(sep)` for a non-empty separator: the text between
      the non-overlapping occurrences of `sep`, found left to right. */
  function SplitBy(s: string, sep: string): (parts: seq<string>)
    requires |sep| > 0
    ensures |parts| >= 1
    decreases |s|
  {
    if StartsWith(s, sep) then
      [""] + SplitBy(s[|sep|..], sep)
    else if s == [] then
      [""]
    else
      var rest := SplitBy(s[1..], sep);
      [[s[0]] + rest[0]] + rest[1..]
  }

  /** Python's `sep.join(parts)`. */
  function Join(parts: seq<string>, sep: string): string {
    if |parts| == 0 then ""
    else if |parts| == 1 then parts[0]
    else parts[0] + sep + Join(parts[1..], sep)
  }

  /** Joining the pieces of a split with the same separator gives the
      original string back. */
  lemma {:induction false} JoinSplit(s: string, sep: string)
    requires |sep| > 0
    ensures Join(SplitBy(s, sep), sep) == s
    decreases |s|
  {
    if StartsWith(s, sep) {
      JoinSplit(s[|sep|..], sep);
      JoinSplitAtSep(s, sep);
    } else if s != [] {
      JoinSplit(s[1..], sep);
      JoinSplitAtChar(s, sep);
    }
  }

  /** The round trip on a string that starts with the separator. */
  lemma JoinSplitAtSep(s: string, sep: string)
    requires |sep| > 0 && StartsWith(s, sep)
    requires Join(SplitBy(s[|sep|..], sep), sep) == s[|sep|..]
    ensures Join(SplitBy(s, sep), sep) == s
  {
    var parts := SplitBy(s[|sep|..], sep);
    assert SplitBy(s, sep) == [""] + parts;
    JoinConsEmpty(parts, sep);
    assert s == s[..|sep|] + s[|sep|..];
  }

  /** An empty first piece puts the separator first. */
  lemma JoinConsEmpty(parts: seq<string>, sep: string)
    requires |parts| >= 1
    ensures Join([""] + parts, sep) == sep + Join(parts, sep)
  {
    var all := [""] + parts;
    assert all[1..] == parts;
  }

  /** The round trip on a string that starts with another character. */
  lemma JoinSplitAtChar(s: string, sep: string)
    requires |sep| > 0 && !StartsWith(s, sep) && s != []
    requires Join(SplitBy(s[1..], sep), sep) == s[1..]
    ensures Join(SplitBy(s, sep), sep) == s
  {
    var rest := SplitBy(s[1..], sep);
    assert SplitBy(s, sep) == [[s[0]] + rest[0]] + rest[1..];
    JoinConsChar(s[0], rest, sep);
    assert s == [s[0]] + s[1..];
  }

  /** Prefixing the first piece prefixes the joined string. */
  lemma JoinConsChar(c: char, rest: seq<string>, sep: string)
    requires |rest| >= 1
    ensures Join([[c] + rest[0]] + rest[1..], sep) == [c] + Join(rest, sep)
  {
    var parts := [[c] + rest[0]] + rest[1..];
    assert parts[1..] == rest[1..];
  }

  /** Splitting on a one-character separator leaves that character in no
      piece. */
  lemma {:induction false} SplitPiecesFree(s: string, c: char)
    ensures forall i :: 0 <= i < |SplitBy(s, [c])| ==> c !in SplitBy(s, [c])[i]
    decreases |s|
  {
    if StartsWith(s, [c]) {
      SplitPiecesFree(s[1..], c);
    } else if s == [] {
    } else {
      SplitPiecesFree(s[1..], c);
      assert s[0] != c;
    }
  }

  /** A string free of the separator character splits into itself. */
  lemma {:induction false} SplitFree(p: string, c: char)
    requires c !in p
    ensures SplitBy(p, [c]) == [p]
    decreases |p|
  {
    if p != [] {
      SplitFree(p[1..], c);
      assert [p[0]] + p[1..] == p;
    }
  }

  /** Splitting `p + c + tail` for a piece `p` free of `c` yields `p` first. */
  lemma {:induction false} SplitAfterPiece(p: string, c: char, tail: string)
    requires c !in p
    ensures SplitBy(p + [c] + tail, [c]) == [p] + SplitBy(tail, [c])
    decreases |p|
  {
    var s := p + [c] + tail;
    if p == [] {
      assert StartsWith(s, [c]);
      assert s[1..] == tail;
    } else {
      assert s[0] == p[0] && p[0] in p;
      assert s[..1] == [p[0]];
      assert !StartsWith(s, [c]);
      assert s[1..] == p[1..] + [c] + tail;
      SplitAfterPiece(p[1..], c, tail);
      assert [p[0]] + p[1..] == p;
    }
  }

  /** A string without the separator's first character splits into
      itself. */
  lemma {:induction false} SplitWithout(p: string, sep: string)
    requires |sep| > 0 && sep[0] !in p
    ensures SplitBy(p, sep) == [p]
    decreases |p|
  {
    if p != [] {
      assert !StartsWith(p, sep) by { assert p[0] in p; }
      SplitWithout(p[1..], sep);
      assert [p[0]] + p[1..] == p;
    }
  }

  /** `(a + sep + b).split(sep) == [a, b]` when neither side holds the
      separator's first character. */
  lemma {:induction false} SplitAround(a: string, sep: string, b: string)
    requires |sep| > 0 && sep[0] !in a && sep[0] !in b
    ensures SplitBy(a + sep + b, sep) == [a, b]
    decreases |a|
  {
    var s := a + sep + b;
    if a == [] {
      assert StartsWith(s, sep);
      assert s[|sep|..] == b;
      SplitWithout(b, sep);
    } else {
      assert s[0] == a[0] && a[0] in a;
      assert !StartsWith(s, sep);
      assert s[1..] == a[1..] + sep + b;
      SplitAround(a[1..], sep, b);
      assert [a[0]] + a[1..] == a;
    }
  }

  /** Splitting a join on a one-character separator, when no piece contains
      it, gives the pieces back. */
  lemma {:induction false} SplitJoin(parts: seq<string>, c: char)
    requires |parts| >= 1
    requires forall i :: 0 <= i < |parts| ==> c !in parts[i]
    ensures SplitBy(Join(parts, [c]), [c]) == parts
    decreases |parts|
  {
    if |parts| == 1 {
      SplitFree(parts[0], c);
    } else {
      SplitJoin(parts[1..], c);
      SplitAfterPiece(parts[0], c, Join(parts[1..], [c]));
      assert [parts[0]] + parts[1..] == parts;
    }
  }

  // ---------------------------------------------------------------------
  // Character replacement and whitespace

  /** `s.replace(a, b)` for single characters. */
  function ReplaceChar(s: string, a: char, b: char): (r: string)
    ensures |r| == |s|
    ensures forall i :: 0 <= i < |s| ==> r[i] == if s[i] == a then b else s[i]
  {
    seq(|s|, i requires 0 <= i < |s| => if s[i] == a then b else s[i])
  }

  /** `b.join(s.split(a))` for single characters is `s.replace(a, b)`. */
  lemma {:induction false} JoinSplitReplace(s: string, a: char, b: char)
    ensures Join(SplitBy(s, [a]), [b]) == ReplaceChar(s, a, b)
    decreases |s|
  {
    if s != [] {
      JoinSplitReplace(s[1..], a, b);
      ReplaceCharCons(s, a, b);
      var parts := SplitBy(s[1..], [a]);
      if StartsWith(s, [a]) {
        assert SplitBy(s, [a]) == [""] + parts;
        JoinConsEmpty(parts, [b]);
      } else {
        assert SplitBy(s, [a]) == [[s[0]] + parts[0]] + parts[1..];
        JoinConsChar(s[0], parts, [b]);
      }
    }
  }

  lemma ReplaceCharCons(s: string, a: char, b: char)
    requires s != []
    ensures ReplaceChar(s, a, b) == [if s[0] == a then b else s[0]] + ReplaceChar(s[1..], a, b)
  {
  }

  /** The characters Python's `\s` matches in a str pattern. */
  predicate IsSpace(c: char) {
    c == ' ' || c == '\t' || c == '\n' || c == '\r' || c == '\U{0B}' || c == '\U{0C}'
    || ('\U{1C}' <= c <= '\U{1F}') || c == '\U{85}' || c == '\U{A0}' || c == '\U{1680}'
    || ('\U{2000}' <= c <= '\U{200A}') || c == '\U{2028}' || c == '\U{2029}'
    || c == '\U{202F}' || c == '\U{205F}' || c == '\U{3000}'
  }

  /** `s` with its leading whitespace removed. */
  function DropSpaces(s: string): (r: string)
    ensures |r| <= |s|
    ensures r == [] || !IsSpace(r[0])
    ensures RemoveSpaces(r) == RemoveSpaces(s)
  {
    if s != [] && IsSpace(s[0]) then DropSpaces(s[1..]) else s
  }

  /** `DropSpaces(s)` is what follows the run of whitespace `s` starts
      with. */
  lemma {:induction false} DropSpacesSplit(s: string)
    ensures DropSpaces(s) == s[|s| - |DropSpaces(s)|..]
    ensures forall j :: 0 <= j < |s| - |DropSpaces(s)| ==> IsSpace(s[j])
    decreases |s|
  {
    if s != [] && IsSpace(s[0]) {
      DropSpacesSplit(s[1..]);
    }
  }

  /** Two texts that agree up to `n` drop the same whitespace run, and
      agree on the `w >= 1` characters after it when these end by `n`. */
  lemma {:induction false} DropSpacesPrefix(a: string, b: string, n: nat, w: nat)
    requires n <= |a| && n <= |b| && a[..n] == b[..n]
    requires 1 <= w <= |DropSpaces(a)| && |a| - |DropSpaces(a)| + w <= n
    ensures |b| - |DropSpaces(b)| == |a| - |DropSpaces(a)|
    ensures w <= |DropSpaces(b)| && DropSpaces(b)[..w] == DropSpaces(a)[..w]
    decreases |a|
  {
    assert a[0] == b[0];
    if IsSpace(a[0]) {
      assert a[1..][..n - 1] == b[1..][..n - 1];
      DropSpacesPrefix(a[1..], b[1..], n - 1, w);
    } else {
      assert DropSpaces(a)[..w] == a[..n][..w];
    }
  }

  /** The non-whitespace characters of `s`, in order. */
  function RemoveSpaces(s: string): string {
    if s == [] then [] else (if IsSpace(s[0]) then [] else [s[0]]) + RemoveSpaces(s[1..])
  }

  /** `re.sub(r"\s+", " ", s)`: every maximal whitespace run becomes one space. */
  function CollapseWhitespace(s: string): string
    decreases |s|
  {
    if s == [] then []
    else if IsSpace(s[0]) then [' '] + CollapseWhitespace(DropSpaces(s[1..]))
    else [s[0]] + CollapseWhitespace(s[1..])
  }

  /** The only whitespace left by the collapse is single spaces, never at the
      start of a collapsed run's successor, and no other character is lost. */
  lemma {:induction false} CollapseWhitespaceFacts(s: string)
    ensures var r := CollapseWhitespace(s);
      && (forall i :: 0 <= i < |r| && IsSpace(r[i]) ==> r[i] == ' ')
      && (forall i :: 0 <= i < |r| - 1 && r[i] == ' ' ==> r[i + 1] != ' ')
      && RemoveSpaces(r) == RemoveSpaces(s)
      && (r == [] || !IsSpace(r[0]) || IsSpace(s[0]))
    decreases |s|
  {
    if s == [] {
    } else if IsSpace(s[0]) {
      var t := DropSpaces(s[1..]);
      CollapseWhitespaceFacts(t);
      var rt := CollapseWhitespace(t);
      assert rt == [] || !IsSpace(rt[0]) by {
        if rt != [] { assert t != [] && !IsSpace(t[0]); }
      }
      assert RemoveSpaces([' '] + rt) == RemoveSpaces(rt);
    } else {
      CollapseWhitespaceFacts(s[1..]);
      var rt := CollapseWhitespace(s[1..]);
      assert RemoveSpaces([s[0]] + rt) == [s[0]] + RemoveSpaces(rt);
    }
  }

  /** A run of whitespace followed by text that starts with none drops to
      that text. */
  lemma {:induction false} DropSpacesRun(w: string, b: string)
    requires DropSpaces(w) == []
    requires b == [] || !IsSpace(b[0])
    ensures DropSpaces(w + b) == b
    decreases |w|
  {
    if w == [] {
      assert w + b == b;
    } else {
      assert (w + b)[0] == w[0] && (w + b)[1..] == w[1..] + b;
      assert IsSpace(w[0]) && DropSpaces(w[1..]) == [];
      DropSpacesRun(w[1..], b);
    }
  }

  /** A text of whitespace only drops to nothing. */
  lemma {:induction false} DropSpacesAll(w: string)
    requires forall j :: 0 <= j < |w| ==> IsSpace(w[j])
    ensures DropSpaces(w) == []
    decreases |w|
  {
    if w != [] {
      DropSpacesAll(w[1..]);
    }
  }

  /** Text ending in a visible character keeps it, and whatever follows,
      when its leading whitespace is dropped. */
  lemma {:induction false} DropSpacesAppend(x: string, y: string)
    requires x != [] && !IsSpace(x[|x| - 1])
    ensures DropSpaces(x + y) == DropSpaces(x) + y
    ensures DropSpaces(x) != [] && !IsSpace(DropSpaces(x)[|DropSpaces(x)| - 1])
    decreases |x|
  {
    TailOfAppend(x, y);
    if IsSpace(x[0]) {
      TailEndsVisible(x);
      DropSpacesAppend(x[1..], y);
      DropSpacesSkip(x);
      DropSpacesSkip(x + y);
    } else {
      DropSpacesStop(x);
      DropSpacesStop(x + y);
    }
  }

  /** Where the spaces go: a whitespace run between two visible characters
      becomes exactly one space between their collapsed sides. */
  lemma {:induction false} CollapseAround(a: string, w: string, b: string)
    requires a == [] || !IsSpace(a[|a| - 1])
    requires w != [] && DropSpaces(w) == []
    requires b == [] || !IsSpace(b[0])
    ensures CollapseWhitespace(a + w + b) == CollapseWhitespace(a) + " " + CollapseWhitespace(b)
    decreases |a|, 1
  {
    if a == [] {
      CollapseAroundRun(w, b);
      assert a + w + b == w + b;
    } else if IsSpace(a[0]) {
      CollapseAroundSpaceCase(a, w, b);
    } else {
      CollapseAroundVisibleCase(a, w, b);
    }
  }

  /** `CollapseAround` when `a` starts with whitespace. */
  lemma {:induction false} CollapseAroundSpaceCase(a: string, w: string, b: string)
    requires a != [] && IsSpace(a[0]) && !IsSpace(a[|a| - 1])
    requires w != [] && DropSpaces(w) == []
    requires b == [] || !IsSpace(b[0])
    ensures CollapseWhitespace(a + w + b) == CollapseWhitespace(a) + " " + CollapseWhitespace(b)
    decreases |a|, 0
  {
    var x := a[1..];
    TailEndsVisible(a);
    DropSpacesAppend(x, w + b);
    CollapseAround(DropSpaces(x), w, b);
    CollapseAroundSpace(a, w, b);
  }

  /** `CollapseAround` when `a` starts with a visible character. */
  lemma {:induction false} CollapseAroundVisibleCase(a: string, w: string, b: string)
    requires a != [] && !IsSpace(a[0]) && !IsSpace(a[|a| - 1])
    requires w != [] && DropSpaces(w) == []
    requires b == [] || !IsSpace(b[0])
    ensures CollapseWhitespace(a + w + b) == CollapseWhitespace(a) + " " + CollapseWhitespace(b)
    decreases |a|, 0
  {
    TailEndsVisible(a);
    CollapseAround(a[1..], w, b);
    CollapseAroundVisible(a, w, b);
  }

  lemma DropSpacesSkip(s: string)
    requires s != [] && IsSpace(s[0])
    ensures DropSpaces(s) == DropSpaces(s[1..])
  {
  }

  lemma DropSpacesStop(s: string)
    requires s != [] && !IsSpace(s[0])
    ensures DropSpaces(s) == s
  {
  }

  lemma TailOfAppend(x: string, y: string)
    requires x != []
    ensures (x + y)[0] == x[0] && (x + y)[1..] == x[1..] + y
  {
  }

  lemma TailEndsVisible(a: string)
    requires a != [] && !IsSpace(a[|a| - 1])
    ensures a[1..] == [] ==> !IsSpace(a[0])
    ensures a[1..] == [] || !IsSpace(a[1..][|a[1..]| - 1])
  {
  }

  /** `CollapseAround` with nothing on the left. */
  lemma CollapseAroundRun(w: string, b: string)
    requires w != [] && DropSpaces(w) == []
    requires b == [] || !IsSpace(b[0])
    ensures CollapseWhitespace(w + b) == " " + CollapseWhitespace(b)
  {
    var t := w + b;
    assert t[0] == w[0] && t[1..] == w[1..] + b;
    assert IsSpace(w[0]) && DropSpaces(w[1..]) == [];
    DropSpacesRun(w[1..], b);
  }

  /** The step of `CollapseAround` past a leading whitespace run of `a`. */
  lemma CollapseAroundSpace(a: string, w: string, b: string)
    requires a != [] && IsSpace(a[0])
    requires DropSpaces(a[1..] + (w + b)) == DropSpaces(a[1..]) + (w + b)
    requires var d := DropSpaces(a[1..]);
      CollapseWhitespace(d + w + b) == CollapseWhitespace(d) + " " + CollapseWhitespace(b)
    ensures CollapseWhitespace(a + w + b) == CollapseWhitespace(a) + " " + CollapseWhitespace(b)
  {
    var t := a + w + b;
    var d := DropSpaces(a[1..]);
    TailOf3(a, w, b);
    CollapseSpaceUnfold(t);
    CollapseSpaceUnfold(a);
    Assoc3(d, w, b);
    ConsSplit(' ', CollapseWhitespace(t), CollapseWhitespace(a), CollapseWhitespace(d), CollapseWhitespace(b));
  }

  /** The step of `CollapseAround` past a visible first character of `a`. */
  lemma CollapseAroundVisible(a: string, w: string, b: string)
    requires a != [] && !IsSpace(a[0])
    requires CollapseWhitespace(a[1..] + w + b) == CollapseWhitespace(a[1..]) + " " + CollapseWhitespace(b)
    ensures CollapseWhitespace(a + w + b) == CollapseWhitespace(a) + " " + CollapseWhitespace(b)
  {
    var t := a + w + b;
    TailOf3(a, w, b);
    CollapseVisibleUnfold(t);
    CollapseVisibleUnfold(a);
    ConsSplit(a[0], CollapseWhitespace(t), CollapseWhitespace(a), CollapseWhitespace(a[1..]), CollapseWhitespace(b));
  }

  lemma CollapseSpaceUnfold(s: string)
    requires s != [] && IsSpace(s[0])
    ensures CollapseWhitespace(s) == [' '] + CollapseWhitespace(DropSpaces(s[1..]))
  {
  }

  lemma CollapseVisibleUnfold(s: string)
    requires s != [] && !IsSpace(s[0])
    ensures CollapseWhitespace(s) == [s[0]] + CollapseWhitespace(s[1..])
  {
  }

  /** A collapse that starts with `c` followed by `x + " " + z`, where the
      left side collapses to `c` then `x`, is the left side, a space, then `z`. */
  lemma ConsSplit(c: char, ct: string, ca: string, x: string, z: string)
    requires ct == [c] + (x + " " + z) && ca == [c] + x
    ensures ct == ca + " " + z
  {
    ConsAppend3(c, x, " ", z);
  }

  lemma TailOf3(a: string, w: string, b: string)
    requires a != []
    ensures (a + w + b)[0] == a[0]
    ensures (a + w + b)[1..] == a[1..] + (w + b) == a[1..] + w + b
  {
    var t := a + w + b;
    forall i | 0 <= i < |t| - 1 ensures t[1..][i] == (a[1..] + (w + b))[i] {
      if i + 1 < |a| {
      } else if i + 1 < |a| + |w| {
      }
    }
  }

  lemma Assoc3(x: string, y: string, z: string)
    ensures x + (y + z) == x + y + z
  {
  }

  lemma ConsAppend3(c: char, x: string, y: string, z: string)
    ensures [c] + (x + y + z) == [c] + x + y + z
  {
  }

  /** Replacing a character distributes over concatenation. */
  lemma ReplaceCharAppend(x: string, y: string, a: char, b: char)
    ensures ReplaceChar(x + y, a, b) == ReplaceChar(x, a, b) + ReplaceChar(y, a, b)
  {
    var l := ReplaceChar(x + y, a, b);
    var r := ReplaceChar(x, a, b) + ReplaceChar(y, a, b);
    forall i | 0 <= i < |l| ensures l[i] == r[i] {
      if i < |x| { assert (x + y)[i] == x[i]; } else { assert (x + y)[i] == y[i - |x|]; }
    }
  }

  // ---------------------------------------------------------------------
  // int() on a decimal literal

  predicate IsDigit(c: char) { '0' <= c <= '9' }

  /** The value of a non-empty string of decimal digits. */
  function DigitsValue(s: string): nat
    requires forall i :: 0 <= i < |s| ==> IsDigit(s[i])
  {
    if s == [] then 0 else
      assert IsDigit(s[|s| - 1]);
      DigitsValue(s[..|s| - 1]) * 10 + (s[|s| - 1] as int - '0' as int)
  }

  /** `s` without leading and trailing whitespace (`str.strip()`). */
  function Strip(s: string): string
    decreases |s|
  {
    if s != [] && IsSpace(s[0]) then Strip(s[1..])
    else if s != [] && IsSpace(s[|s| - 1]) then Strip(s[..|s| - 1])
    else s
  }

  /** Python's `int(s)` on a string: optional surrounding whitespace, an
      optional sign and at least one decimal digit; anything else raises
      `ValueError`. */
  function ParseInt(s: string): (r: Result<int>)
  {
    var t := Strip(s);
    var sign := if t != [] && (t[0] == '-' || t[0] == '+') then t[..1] else "";
    var digits := t[|sign|..];
    if digits != [] && forall i :: 0 <= i < |digits| ==> IsDigit(digits[i]) then
      var v: int := if sign == "-" then 0 - DigitsValue(digits) else DigitsValue(digits);
      Ok(v)
    else
      Err(ValueError("invalid literal for int() with base 10: '" + s + "'"))
  }

  /** The decimal representation of a natural number (Python's `str(n)`). */
  function NatToString(n: nat): (r: string)
    ensures r != [] && forall i :: 0 <= i < |r| ==> IsDigit(r[i])
    ensures !IsSpace(r[0]) && !IsSpace(r[|r| - 1])
  {
    if n < 10 then ['0' + n as char]
    else NatToString(n / 10) + ['0' + (n % 10) as char]
  }

  lemma {:induction false} DigitsOfNatToString(n: nat)
    ensures DigitsValue(NatToString(n)) == n
  {
    if n >= 10 {
      DigitsOfNatToString(n / 10);
      var r := NatToString(n);
      assert r[..|r| - 1] == NatToString(n / 10);
    }
  }

  /** `int(str(n)) == n`. */
  lemma ParseNatToString(n: nat)
    ensures ParseInt(NatToString(n)) == Ok(n)
  {
    var r := NatToString(n);
    assert Strip(r) == r;
    DigitsOfNatToString(n);
  }

  // ---------------------------------------------------------------------
  // sorted() over strings

  /** Python's `a <= b` on str: lexicographic by code point. */
  predicate StrLe(a: string, b: string) {
    a == [] || (b != [] && (a[0] < b[0] || (a[0] == b[0] && StrLe(a[1..], b[1..]))))
  }

  lemma {:induction false} StrLeTotal(a: string, b: string)
    ensures StrLe(a, b) || StrLe(b, a)
  {
    if a != [] && b != [] && a[0] == b[0] { StrLeTotal(a[1..], b[1..]); }
  }

  lemma {:induction false} StrLeAntisymmetric(a: string, b: string)
    requires StrLe(a, b) && StrLe(b, a)
    ensures a == b
  {
    if a != [] && b != [] {
      StrLeAntisymmetric(a[1..], b[1..]);
      assert a == [a[0]] + a[1..] && b == [b[0]] + b[1..];
    }
  }

  lemma {:induction false} StrLeTransitive(a: string, b: string, c: string)
    requires StrLe(a, b) && StrLe(b, c)
    ensures StrLe(a, c)
  {
    if a != [] && b != [] && c != [] && a[0] == b[0] && b[0] == c[0] {
      StrLeTransitive(a[1..], b[1..], c[1..]);
    }
  }

  predicate Sorted(s: seq<string>) {
    forall i, j :: 0 <= i < j < |s| ==> StrLe(s[i], s[j])
  }

  /** Putting a lower bound of a sorted sequence in front keeps it sorted. */
  lemma ConsSorted(x: string, s: seq<string>)
    requires Sorted(s) && forall k :: 0 <= k < |s| ==> StrLe(x, s[k])
    ensures Sorted([x] + s)
  {
    var xs := [x] + s;
    forall i, j | 0 <= i < j < |xs| ensures StrLe(xs[i], xs[j]) {
      if i == 0 {
        assert xs[j] == s[j - 1];
      } else {
        assert xs[i] == s[i - 1] && xs[j] == s[j - 1];
      }
    }
  }

  /** Below the head of a sorted sequence is below all of it. */
  lemma BelowHead(x: string, s: seq<string>)
    requires Sorted(s) && s != [] && StrLe(x, s[0])
    ensures forall k :: 0 <= k < |s| ==> StrLe(x, s[k])
  {
    forall k | 0 <= k < |s| ensures StrLe(x, s[k]) {
      if k > 0 { StrLeTransitive(x, s[0], s[k]); }
    }
  }

  /** The head of a sorted sequence is below `x` and the rest of it. */
  lemma HeadBelowInserted(s: seq<string>, x: string, t: seq<string>)
    requires Sorted(s) && s != [] && StrLe(s[0], x)
    requires multiset(t) == multiset(s[1..]) + multiset{x}
    ensures forall k :: 0 <= k < |t| ==> StrLe(s[0], t[k])
  {
    forall k | 0 <= k < |t| ensures StrLe(s[0], t[k]) {
      var y := t[k];
      assert y in multiset(t);
      if y != x {
        assert y in multiset(s[1..]);
        var j :| 0 <= j < |s[1..]| && s[1..][j] == y;
        assert s[j + 1] == y;
      }
    }
  }

  /** Inserts `x` into the sorted sequence `s`. */
  function Insert(x: string, s: seq<string>): (r: seq<string>)
    requires Sorted(s)
    ensures Sorted(r) && multiset(r) == multiset(s) + multiset{x}
  {
    if s == [] then [x]
    else if StrLe(x, s[0]) then
      BelowHead(x, s);
      ConsSorted(x, s);
      [x] + s
    else
      SortedTail(s);
      var t := Insert(x, s[1..]);
      StrLeTotal(x, s[0]);
      HeadBelowInserted(s, x, t);
      ConsSorted(s[0], t);
      assert s == [s[0]] + s[1..];
      [s[0]] + t
  }

  /** `sorted(s)`: the sorted permutation of `s`. */
  function Sort(s: seq<string>): (r: seq<string>)
    ensures Sorted(r) && multiset(r) == multiset(s)
  {
    if s == [] then [] else
      assert s == [s[0]] + s[1..];
      Insert(s[0], Sort(s[1..]))
  }

  /** The head of a sorted sequence is below every element. */
  lemma SortedHeadIsLeast(a: seq<string>, y: string)
    requires Sorted(a) && a != [] && y in multiset(a)
    ensures StrLe(a[0], y)
  {
    var i :| 0 <= i < |a| && a[i] == y;
    if i == 0 { StrLeTotal(y, y); }
  }

  /** A multiset has exactly one sorted arrangement. */
  lemma {:induction false} SortedUnique(a: seq<string>, b: seq<string>)
    requires Sorted(a) && Sorted(b) && multiset(a) == multiset(b)
    ensures a == b
    decreases |a|
  {
    assert |b| == |a| by { assert |multiset(a)| == |multiset(b)|; }
    if a != [] {
      SortedSameHead(a, b);
      SameTailMultiset(a, b);
      SortedTail(a);
      SortedTail(b);
      SortedUnique(a[1..], b[1..]);
      assert a == [a[0]] + a[1..] && b == [b[0]] + b[1..];
    }
  }

  /** Two sorted arrangements of one multiset start alike. */
  lemma SortedSameHead(a: seq<string>, b: seq<string>)
    requires Sorted(a) && Sorted(b) && multiset(a) == multiset(b) && a != []
    ensures b != [] && a[0] == b[0]
  {
    assert a[0] in multiset(b);
    assert b != [];
    assert b[0] in multiset(a);
    SortedHeadIsLeast(b, a[0]);
    SortedHeadIsLeast(a, b[0]);
    StrLeAntisymmetric(a[0], b[0]);
  }

  /** Equal multisets with equal heads have equal tails. */
  lemma SameTailMultiset(a: seq<string>, b: seq<string>)
    requires a != [] && b != [] && a[0] == b[0] && multiset(a) == multiset(b)
    ensures multiset(a[1..]) == multiset(b[1..])
  {
    assert a == [a[0]] + a[1..] && b == [b[0]] + b[1..];
    assert multiset(a[1..]) == multiset(a) - multiset{a[0]};
    assert multiset(b[1..]) == multiset(b) - multiset{b[0]};
  }

  lemma SortedTail(a: seq<string>)
    requires Sorted(a) && a != []
    ensures Sorted(a[1..])
  {
    forall i, j | 0 <= i < j < |a| - 1 ensures StrLe(a[1..][i], a[1..][j]) {
      assert a[1..][i] == a[i + 1] && a[1..][j] == a[j + 1];
    }
  }
}
