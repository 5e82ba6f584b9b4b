/** The textual import scan of fetch.py: `re.compile(r"import (.+) {")`,
    `findall` over a module's text, then every `'` and `"` removed from
    each captured name.

    `.` does not match a newline, so a match lies within one line; in a
    line the leftmost match starts at the first `import `, and the greedy
    `.+` stretches to the last ` {` of that line, which leaves no room for
    a second match on the same line. */
module ImportScan {
  import opened Wrappers
  import opened Text

  const ImportWord := "import "
  const OpenBrace := " {"

  /** The group captured by `import (.+) {` in one line, if it matches:
      it runs from the first `import ` to the last ` {`. */
  function LineCapture(line: string): (r: Option<string>)
    ensures r.Some? ==> exists i, k :: && IsAt(line, ImportWord, i) && IsAt(line, OpenBrace, k)
                                       && i + 8 <= k && r.value == line[i + 7..k]
                                       && (forall j :: 0 <= j < i ==> !IsAt(line, ImportWord, j))
                                       && (forall j :: k < j ==> !IsAt(line, OpenBrace, j))
    ensures (exists i, k :: IsAt(line, ImportWord, i) && IsAt(line, OpenBrace, k) && i + 8 <= k)
            ==> r.Some?
  {
    match IndexOf(line, ImportWord)
    case None => None
    case Some(i) =>
      match LastIndexOf(line, OpenBrace)
      case None => None
      case Some(k) => if i + 8 <= k then Some(line[i + 7..k]) else None
  }

  /** The captures of `findall` over a whole text, in text order. */
  function Captures(lines: seq<string>): (r: seq<string>)
    ensures |r| <= |lines|
  {
    if lines == [] then []
    else
      (match LineCapture(lines[0]) case Some(c) => [c] case None => []) + Captures(lines[1..])
  }

  predicate IsQuote(c: char) {
    c == '\'' || c == '"'
  }

  /** `re.sub("['\"]", "", s)`. */
  function StripQuotes(s: string): (r: string)
    ensures forall c :: c in r <==> c in s && !IsQuote(c)
    ensures |r| <= |s|
  {
    if s == [] then []
    else (if IsQuote(s[0]) then [] else [s[0]]) + StripQuotes(s[1..])
  }

  /** Removing quotes distributes over concatenation. */
  lemma {:induction false} StripQuotesAppend(a: string, b: string)
    ensures StripQuotes(a + b) == StripQuotes(a) + StripQuotes(b)
    decreases |a|
  {
    if a != [] {
      var h := if IsQuote(a[0]) then [] else [a[0]];
      assert (a + b)[0] == a[0] && (a + b)[1..] == a[1..] + b;
      StripQuotesAppend(a[1..], b);
      assert StripQuotes(a + b) == h + (StripQuotes(a[1..]) + StripQuotes(b));
      assert StripQuotes(a) == h + StripQuotes(a[1..]);
    } else {
      assert a + b == b;
    }
  }

  /** A quote is removed and any other character kept. */
  lemma StripQuotesChar(c: char)
    ensures StripQuotes([c]) == if IsQuote(c) then [] else [c]
  {
    assert [c][1..] == [];
  }

  /** The import names `get_schema_and_dependants` reads from a module text. */
  function ImportNames(text: string): (names: seq<string>)
  {
    var caps := Captures(SplitBy(text, "\n"));
    seq(|caps|, i requires 0 <= i < |caps| => StripQuotes(caps[i]))
  }

  /** No import name holds a quote or a line break. */
  lemma ImportNamesSound(text: string)
    ensures forall n :: n in ImportNames(text) ==>
      forall c :: c in n ==> !IsQuote(c) && c != '\n'
  {
    var lines := SplitBy(text, "\n");
    SplitPiecesFree(text, '\n');
    CapturesInLines(lines);
  }

  lemma {:induction false} CapturesInLines(lines: seq<string>)
    requires forall i :: 0 <= i < |lines| ==> '\n' !in lines[i]
    ensures forall c :: c in Captures(lines) ==> '\n' !in c
  {
    if lines != [] {
      CapturesInLines(lines[1..]);
      match LineCapture(lines[0])
      case None =>
      case Some(c) =>
        var i, k :| IsAt(lines[0], ImportWord, i) && IsAt(lines[0], OpenBrace, k)
                    && i + 8 <= k && c == lines[0][i + 7..k];
        assert forall j :: 0 <= j < |c| ==> c[j] == lines[0][i + 7 + j];
    }
  }

  /** The line `import X {` captures exactly `X`. */
  lemma LineCaptureOf(x: string)
    requires x != []
    ensures LineCapture(ImportWord + x + OpenBrace) == Some(x)
  {
    var line := ImportWord + x + OpenBrace;
    assert line[..7] == ImportWord;
    assert IndexOf(line, ImportWord) == Some(0);
    assert line[|line| - 2..] == OpenBrace;
    assert LastIndexOf(line, OpenBrace) == Some(7 + |x|);
    assert line[7..7 + |x|] == x;
  }

  /** Two imports on one line: the greedy group runs from the first
      `import ` to the last ` {`, swallowing the second import. */
  lemma LineCaptureGreedy()
    ensures LineCapture("import a { import b {") == Some("a { import b")
  {
    var line := "import a { import b {";
    assert IsAt(line, ImportWord, 0);
    var i := IndexOf(line, ImportWord);
    assert i == Some(0);
    assert IsAt(line, OpenBrace, 19);
    var k := LastIndexOf(line, OpenBrace);
    assert k == Some(19);
    assert line[7..19] == "a { import b";
  }

  /** `findall` over the one line `import X {` captures just `X`. */
  lemma CapturesOfLine(x: string)
    requires x != []
    ensures Captures([ImportWord + x + OpenBrace]) == [x]
  {
    var lines: seq<string> := [ImportWord + x + OpenBrace];
    LineCaptureOf(x);
    assert lines[1..] == [];
  }

  /** A line `import X {` declares exactly `X`, quotes removed. */
  lemma ImportLine(x: string)
    requires x != [] && '\n' !in x
    ensures ImportNames(ImportWord + x + OpenBrace) == [StripQuotes(x)]
  {
    var line := ImportWord + x + OpenBrace;
    LineWithoutBreak(x);
    SplitFree(line, '\n');
    CapturesOfLine(x);
    var names := ImportNames(line);
    assert |names| == 1 && names[0] == StripQuotes(x);
  }

  lemma LineWithoutBreak(x: string)
    requires '\n' !in x
    ensures '\n' !in ImportWord + x + OpenBrace
  {
  }

  /** The names of a text made of lines are the names of each line, in order. */
  lemma ImportNamesOfLines(lines: seq<string>)
    requires |lines| >= 1
    requires forall i :: 0 <= i < |lines| ==> '\n' !in lines[i]
    ensures ImportNames(Join(lines, "\n")) ==
      var caps := Captures(lines); seq(|caps|, i requires 0 <= i < |caps| => StripQuotes(caps[i]))
  {
    SplitJoin(lines, '\n');
  }
}
